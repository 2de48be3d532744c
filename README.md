# MonoWorks core, modelled in Dafny

MonoWorks is a C# CAD and plotting toolkit. This project models the discrete, sequential logic
at the heart of its user interface and geometry. The OpenGL, Cairo, Qt and camera machinery
around that logic becomes abstract parameters or call traces. One module per source file:

- `Base` (CollectionExtensions.cs): `ListString` writes a list as `[a,b,c]`; the `First` and
  `Last` accessors.
- `Rendering` (Color.cs): a colour as a four-byte array. Covers the constructors, the checked
  setters and indexer, opacity, the HSV sector table (with C#'s truncating remainder) and the
  inverse colour.
- `Model` (Sketchable.cs, Line.cs): a sketch line's points become a solid/wireframe vertex
  array. Drawing emits a trace of OpenGL calls, and the geometry is recomputed lazily.
- `Controls` (ActorPane.cs): a pane that shows a 2D control. Covers the single-focus and
  back-link setters, event forwarding with a flag that is never reset, the y-flip, and the
  dirty-flag texture-upload protocol.
- `Plotting` (AxesBox.cs): the axes box. Covers the child list with parent links, the
  Auto/Manual resize-mode state machine, the clip-plane table per view direction, hit
  testing, the selection description, the plot-bounds branching of `ComputeGeometry`, the
  grids and the axis labels.
- `Gui` (Viewport.cs, Qt backend): the mouse-action state machine over press, release, move
  and wheel events. Covers the mouse and scroll maps, the rubber band, and the requests made
  of Qt and the camera.
- `Dock` (DockBook.cs): the tab selector of a dock book. Finds the nearest insertion index,
  places the drop slot, and keeps exactly the current scene's button selected. Also the
  book's forwarding and resizing.
- `SceneControls` (DrawingController.cs): the toolbar decision table and the sketching state
  machine.
- `Outcomes`: `Outcome`, `Result` and `Option`. A thrown exception becomes `Fail`/`Err`
  carrying the exception's message. The exceptions are `First` and `Last`, which require a
  non-empty list (see "## Left out").

Foreign effects are traces appended to a field:

- OpenGL calls (`Model.GlTrace`);
- Qt and camera requests (`Gui.Viewport.requests`);
- calls on scenes (`Dock.DockBook.calls`);
- calls on the scene, camera and interactor (`SceneControls.DrawingController.calls`);
- the set of enabled clip planes (`Plotting.ClipPlanes`).

Values the source computes with code outside this model are parameters:

- camera results: projected corners, the panned or expanded bounds, the rubber band in plot
  space, the viewport's half extents;
- the fitted bounds of the children;
- the set of plottables whose own hit test succeeds;
- the bytes `(byte)(x * 255f)`;
- HSV's `v, t, p, q` and `floor(h/60)`.

## Model

| member | source | states |
|---|---|---|
| `Base.ListString` | trunk/monoworks/Base/CollectionExtensions.cs:18-30 | the result is "[" + the items joined by "," + "]" (no trailing comma); it starts with '[' and ends with ']'; an empty list gives "[]" |
| `Base.TerminatedIsJoinAndComma` | trunk/monoworks/Base/CollectionExtensions.cs:21-27 | for a non-empty list, what the loop builds (each item followed by a comma) is the joined items plus exactly one comma, which the removal drops |
| `Base.TerminatedCommas` | trunk/monoworks/Base/CollectionExtensions.cs:21-25 | the loop appends exactly one comma per item, on top of the commas inside the items |
| `Base.ListStringCommas` | trunk/monoworks/Base/CollectionExtensions.cs:22-28 | the written list holds the items' own commas plus one fewer separator than there are items, and none for an empty list |
| `Base.First` | trunk/monoworks/Base/CollectionExtensions.cs:35-38 | for a non-empty list, the result is the element the rest of the list follows |
| `Base.Last` | trunk/monoworks/Base/CollectionExtensions.cs:43-46 | for a non-empty list, the result is the element that follows all the others |
| `Base.FirstIsLastOfSingleton` | trunk/monoworks/Base/CollectionExtensions.cs:35-46 | for a one-element list, First and Last agree |
| `Rendering.CsRemainder6` | monoworks/Rendering/Color.cs:127 | C#'s `% 6` differs from its argument by a multiple of 6, lies strictly between -6 and 6, and has the argument's sign |
| `Rendering.HsvArrangementChannels` | monoworks/Rendering/Color.cs:128-153 | each of the six sectors places v, p and t/q in a permutation of the channels: v in red for sectors 0 and 5, green for 1 and 2, blue for 3 and 4; p in blue, red or green by pairs; the third channel takes t in even sectors and q in odd ones |
| `Rendering.HsvSectorAssigned` | monoworks/Rendering/Color.cs:127-153 | a colour is assigned iff floor(h/60) is non-negative or a multiple of 6; other negative values give a negative sector that no case handles |
| `Rendering.InverseOf` | monoworks/Rendering/Color.cs:276-279 | the inverse has alpha 255 and takes channel i from channel (i+1) mod 3: green, blue, red |
| `Rendering.InverseThrice` | monoworks/Rendering/Color.cs:276-279 | inverting three times restores red, green and blue, with alpha 255 |
| `Rendering.Color.Default` | monoworks/Rendering/Color.cs:47-50 | the default colour is the bytes (0, 0, 0, 255) in a fresh array |
| `Rendering.Color.FromRgb` | monoworks/Rendering/Color.cs:58-61 | three bytes are stored in order, with alpha 255 |
| `Rendering.Color.FromRgba` | monoworks/Rendering/Color.cs:70-73 | all four bytes are stored as given |
| `Rendering.Color.SetRgba` | monoworks/Rendering/Color.cs:165-175 | succeeds iff the array has 4 elements, and the array then becomes the storage; otherwise it fails and the colour keeps its storage |
| `Rendering.Color.IsOpaque` | monoworks/Rendering/Color.cs:203-208 | true iff the alpha byte is 255 |
| `Rendering.Color.Component` | monoworks/Rendering/Color.cs:215-222 | defined iff 0 <= index <= 3; the value lies in [0, 1] and times 255 gives the stored byte |
| `Rendering.Color.SetComponent` | monoworks/Rendering/Color.cs:223-228 | succeeds iff 0 <= index <= 3 and then changes exactly the indexed byte; otherwise it fails and nothing changes |
| `Rendering.Color.SetRgbf` | monoworks/Rendering/Color.cs:180-190 | succeeds iff given 3 values; red, green and blue become them in order and alpha is kept; otherwise it fails and nothing changes |
| `Rendering.Color.SetHsv` | monoworks/Rendering/Color.cs:125-154 | the colour becomes the sector's arrangement followed by the old alpha, or stays unchanged when the sector is outside 0..5; alpha never changes |
| `Rendering.Color.Inverse` | monoworks/Rendering/Color.cs:276-279 | returns a fresh valid colour whose bytes are the inverse of this colour's |
| `Model.VertexCallsAt` | trunk/monoworks/Model/Sketchs/Sketchable.cs:83-89 | the vertex trace has one call per point and its k-th call carries the k-th point's three coordinates |
| `Model.Resize` | trunk/monoworks/Model/Sketchs/Line.cs:93 | growing bounds by a point gives bounds that hold the point and enclose the old bounds |
| `Model.EnclosesHolds` | trunk/monoworks/Model/Sketchs/Line.cs:93 | a point inside some bounds stays inside any bounds that enclose them |
| `Model.EnclosesTransitive` | trunk/monoworks/Model/Sketchs/Line.cs:87-99 | enclosure is transitive, so bounds that only grow enclose every earlier state |
| `Model.ToVectors` | trunk/monoworks/Model/Sketchs/Line.cs:89-94 | the vectors have the points' length and the i-th is the i-th point's vector |
| `Model.Sketchable.constructor` | trunk/monoworks/Model/Sketchs/Sketchable.cs:33-37 | a new sketchable has empty, fresh solid and wireframe arrays |
| `Model.Sketchable.DrawVertices` | trunk/monoworks/Model/Sketchs/Sketchable.cs:83-89 | the trace gains exactly the vertex calls of the solid points, in array order |
| `Model.Sketchable.Render` | trunk/monoworks/Model/Sketchs/Sketchable.cs:70-77 | the trace gains, in order: colour white, begin line strip, the vertices, end |
| `Model.FreshSketchableDrawsNothing` | trunk/monoworks/Model/Sketchs/Sketchable.cs:33-37 | a freshly constructed sketchable draws no vertices |
| `Model.Line.Empty` | trunk/monoworks/Model/Sketchs/Line.cs:35-38 | a new line has one momento whose points list is empty, and no bounds |
| `Model.Line.Through` | trunk/monoworks/Model/Sketchs/Line.cs:47-51 | the line holds exactly the points [p1, p2], in that order |
| `Model.Line.AddMomento` | trunk/monoworks/Model/Sketchs/Line.cs:59-64 | a momento with an empty points list is appended; the current points are unchanged |
| `Model.Line.AddPoint` | trunk/monoworks/Model/Sketchs/Line.cs:74-77 | adding to Points appends the point to the current momento only |
| `Model.Line.ComputeGeometry` | trunk/monoworks/Model/Sketchs/Line.cs:87-99 | the solid array is fresh and holds the points' vectors in order; the wireframe array is the same array; the bounds hold every solid point and enclose the old bounds |
| `Model.Line.DrawVertices` | trunk/monoworks/Model/Sketchs/Line.cs:106-111 | the geometry is recomputed iff the point count differs from the solid array's length, which afterwards equals the count; the vertices of the solid array are drawn |
| `Model.Line.Render` | trunk/monoworks/Model/Sketchs/Sketchable.cs:70-77 | a line renders white, line strip, the vertices of its up-to-date solid array, end |
| `Controls.ActorPane.constructor` | trunk/monoworks/Controls/ActorPane.cs:36-42 | a new pane has no control, no focus, no texture, nothing dirty and no upload |
| `Controls.ActorPane.WithControl` | trunk/monoworks/Controls/ActorPane.cs:44-47 | a pane built with a control shows it, and the control's pane is the new pane |
| `Controls.ActorPane.RenderSize` | trunk/monoworks/Controls/ActorPane.cs:53-62 | the control's size, or the zero coord without a control |
| `Controls.ActorPane.SetControl` | trunk/monoworks/Controls/ActorPane.cs:82-95 | the old control loses its pane; a non-null value becomes the control with this pane; null keeps the old control in the field |
| `Controls.ActorPane.SetInFocus` | trunk/monoworks/Controls/ActorPane.cs:105-119 | the focus becomes the value; setting the current focus changes nothing; otherwise the old focus loses focus and a non-null new focus gains it |
| `Controls.ActorPane.ControlPoint` | trunk/monoworks/Controls/ActorPane.cs:124-132 | x is kept and y is flipped against the pane's height |
| `Controls.ActorPane.Forward` | trunk/monoworks/Controls/ActorPane.cs:134-177 | with a control, the control receives the event at the control point, started handled iff the outer event was; the outer event ends handled iff it was or the control handled it; it is never reset; without a control nothing changes |
| `Controls.ActorPane.OnButtonPress` | trunk/monoworks/Controls/ActorPane.cs:134-147 | a press is forwarded as Forward states: the control receives it at the control point with the outer handled flag, the outer event is handled iff either was, and the control's focus, pane and size are kept |
| `Controls.ActorPane.OnButtonRelease` | trunk/monoworks/Controls/ActorPane.cs:149-162 | a release is forwarded as Forward states: the control receives it at the control point with the outer handled flag, the outer event is handled iff either was, and the control's focus, pane and size are kept |
| `Controls.ActorPane.OnMouseMotion` | trunk/monoworks/Controls/ActorPane.cs:164-177 | a motion is forwarded as Forward states: the control receives it at the control point with the outer handled flag, the outer event is handled iff either was, and the control's focus, pane and size are kept |
| `Controls.ActorPane.OnKeyPress` | trunk/monoworks/Controls/ActorPane.cs:179-187 | the key goes to the control in focus only, and only when there is one |
| `Controls.ActorPane.QueueRender` | trunk/monoworks/Controls/ActorPane.cs:199-202 | the pane becomes dirty |
| `Controls.ActorPane.ComputeGeometry` | trunk/monoworks/Controls/ActorPane.cs:214-226 | with a control, the texture exists and the pane is dirty; without one nothing changes |
| `Controls.ActorPane.RenderTransparent` | trunk/monoworks/Controls/ActorPane.cs:228-253 | with a control, one upload happens iff the pane or the control was dirty, and the pane is clean afterwards; without one nothing changes |
| `Controls.ControlPointMapsPaneOntoItself` | trunk/monoworks/Controls/ActorPane.cs:129-131 | the control point of a point is on the pane iff the point is, flipping twice gives the point back, and every point on the pane is the control point of a point on the pane |
| `Controls.RenderTwice` | trunk/monoworks/Controls/ActorPane.cs:228-253 | with a clean control, a first render uploads once iff the pane was dirty and a second uploads nothing |
| `Plotting.Vec3.With` | trunk/monoworks/Plotting/AxesBox.cs:336-343 | replacing component i changes that component only |
| `Plotting.DisabledPlanesAreDepth` | trunk/monoworks/Plotting/AxesBox.cs:492-533 | in Select2D with a side view, the disabled clip planes are the pair of the one dimension not seen on screen |
| `Plotting.ZoomAsWrittenWritesDepth` | trunk/monoworks/Plotting/AxesBox.cs:624-661 | as written, a Top zoom writes z (whose planes are disabled) and not x, and the Top and Left branches write each other's visible dimensions |
| `Plotting.TitlePosition` | trunk/monoworks/Plotting/AxesBox.cs:456-481 | the title is 32 above the highest projected corner and halfway between the leftmost and rightmost corners |
| `Plotting.OriginAxes` | trunk/monoworks/Plotting/AxesBox.cs:336-343 | in the Origin arrangement each axis starts at the minima and ends at the maxima in its own dimension, the minima elsewhere |
| `Plotting.RemoveFirstAbsent` | trunk/monoworks/Plotting/AxesBox.cs:113-120 | removing a plottable the box does not hold leaves the children unchanged |
| `Plotting.RemoveFirstAt` | trunk/monoworks/Plotting/AxesBox.cs:113-120 | removing the first occurrence keeps all other children in order |
| `Plotting.CountPlotsZero` | trunk/monoworks/Plotting/AxesBox.cs:385-392 | the plot count is zero iff no child is a plot |
| `Plotting.LabelsWithoutPointPlot` | trunk/monoworks/Plotting/AxesBox.cs:241-253 | without a point-plot child the axis labels stay as they were |
| `Plotting.LastPointPlotLabels` | trunk/monoworks/Plotting/AxesBox.cs:241-253 | the last point-plot child's three column names become the labels |
| `Plotting.AxesBox.constructor` | trunk/monoworks/Plotting/AxesBox.cs:57-81 | bounds are [-1,1]^3, the arrangement is Outside, resizing is Auto, the grids pair axes (0,1), (1,2) and (0,2), and there are no children |
| `Plotting.AxesBox.AddChild` | trunk/monoworks/Plotting/AxesBox.cs:100-107 | the plottable is appended and its parent is the box |
| `Plotting.AxesBox.RemoveChild` | trunk/monoworks/Plotting/AxesBox.cs:113-120 | the first occurrence is removed and the plottable's parent is cleared |
| `Plotting.AxesBox.ResetBounds` | trunk/monoworks/Plotting/AxesBox.cs:127-132 | the bounds become [-1,1]^3 |
| `Plotting.AxesBox.SetArrangement` | trunk/monoworks/Plotting/AxesBox.cs:196-204 | the arrangement is set and the box becomes dirty |
| `Plotting.AxesBox.OnViewportResized` | trunk/monoworks/Plotting/AxesBox.cs:135-173 | in Select2D with a side view, the two on-screen dimensions are centred on the camera with the given half extents and the depth keeps its range; in the Standard view or outside Select2D the bounds are unchanged; the box becomes dirty |
| `Plotting.AxesBox.OnViewDirectionChanged` | trunk/monoworks/Plotting/AxesBox.cs:176-184 | resizing returns to Auto whatever the state, then the box refits as OnViewportResized states: in Select2D with a side view the two on-screen dimensions are centred on the camera and the depth keeps its range; in the Standard view or outside Select2D the bounds are unchanged; the box becomes dirty |
| `Plotting.AxesBox.UpdateGrids` | trunk/monoworks/Plotting/AxesBox.cs:316-326 | the furthest corner is remembered; every grid moves to it exactly when it is new or has changed |
| `Plotting.AxesBox.Deselect` | trunk/monoworks/Plotting/AxesBox.cs:682-691 | the box and every child are deselected; each child's parent and description are kept |
| `Plotting.AxesBox.HandlePan` | trunk/monoworks/Plotting/AxesBox.cs:595-608 | handled iff Select2D; then resizing is Manual and the plot bounds are the panned ones; otherwise the mode and the plot bounds are unchanged |
| `Plotting.AxesBox.HandleDolly` | trunk/monoworks/Plotting/AxesBox.cs:610-621 | handled iff Select2D; then resizing is Manual and the plot bounds are the expanded ones; otherwise unchanged |
| `Plotting.AxesBox.HandleZoom` | trunk/monoworks/Plotting/AxesBox.cs:624-661 | handled iff Select2D; then resizing is Manual and the rubber band sets the plot bounds in the two on-screen dimensions, keeping the others; otherwise unchanged |
| `Plotting.AxesBox.EnableClipping` | trunk/monoworks/Plotting/AxesBox.cs:492-533 | all six planes are enabled, then in Select2D the pair for the view direction is disabled: {2,3} Front/Back, {0,1} Left/Right, {4,5} Top/Bottom |
| `Plotting.AxesBox.DisableClipping` | trunk/monoworks/Plotting/AxesBox.cs:539-543 | none of the six planes is left enabled |
| `Plotting.AxesBox.HitTest` | trunk/monoworks/Plotting/AxesBox.cs:664-679 | true iff some child that is a plot is hit; other children are ignored |
| `Plotting.AxesBox.SelectionDescription` | trunk/monoworks/Plotting/AxesBox.cs:693-704 | the description of the first selected child, or "" when none is selected |
| `Plotting.AxesBox.UpdateAxisLabels` | trunk/monoworks/Plotting/AxesBox.cs:241-253 | the labels become those of the last point-plot child, or stay as they were |
| `Plotting.AxesBox.ComputeGeometry` | trunk/monoworks/Plotting/AxesBox.cs:381-434 | with no plot children the plot bounds are [-1,1]^3; with plot children they are the fitted bounds when Auto and unchanged when Manual; the labels are updated |
| `Plotting.AxesBox.SetGridVisible` | trunk/monoworks/Plotting/AxesBox.cs:297-305 | every grid takes the visibility and keeps its axes; the getter then reads the value |
| `Gui.CursorFor` | trunk/monoworks/Gui/Viewport/Viewport.cs:93-99 | every action except None has a cursor |
| `Gui.Viewport.constructor` | trunk/monoworks/Gui/Viewport/Viewport.cs:67-112 | the action is None, the last and current positions are 0, and the maps are the default mouse and scroll maps |
| `Gui.Viewport.Press` | trunk/monoworks/Gui/Viewport/Viewport.cs:275-308 | for any of the five Qt buttons, the two extra ones included: last becomes the press position; a mapped button mask sets the action and its cursor, otherwise the action stays; a zoom starts the enabled rubber band at the press |
| `Gui.Viewport.DoubleClick` | trunk/monoworks/Gui/Viewport/Viewport.cs:315-319 | the camera is reset and the view redrawn |
| `Gui.Viewport.Release` | trunk/monoworks/Gui/Viewport/Viewport.cs:325-342 | the action becomes None and the rubber band is disabled whatever the prior action; the camera zooms to the band only when the prior action was Zoom |
| `Gui.Viewport.Move` | trunk/monoworks/Gui/Viewport/Viewport.cs:349-379 | current and then last become the position; dolly, pan and rotate use the offset from the old last position; in Zoom the band's stop follows; a redraw is requested unless the action is None |
| `Gui.Viewport.Wheel` | trunk/monoworks/Gui/Viewport/Viewport.cs:386-416 | the wheel uses the empty-mask entry: with the default map a negative delta dollies out and any other dollies in; it fails iff the empty mask is unmapped |
| `Gui.Viewport.ChangeView` | trunk/monoworks/Gui/Viewport/Viewport.cs:471-528 | the camera takes the chosen view direction |
| `Gui.Viewport.Resize` | trunk/monoworks/Gui/Viewport/Viewport.cs:553-556 | the camera is reconfigured |
| `Gui.Viewport.Paint` | trunk/monoworks/Gui/Viewport/Viewport.cs:631-634 | a redraw is requested |
| `Gui.WheelRequests` | trunk/monoworks/Gui/Viewport/Viewport.cs:388-413 | a dolly, vertical pan or horizontal pan goes one way for a negative delta and the other way otherwise; no scroll action makes no request |
| `Gui.PressNeverDollies` | trunk/monoworks/Gui/Viewport/Viewport.cs:86-91 | a button's mask, when the default map holds it, never maps to Dolly, so the control-middle entry cannot be reached by a press; the left, middle and right buttons are mapped and the two extra buttons are not |
| `Gui.ExtraButtonPress` | trunk/monoworks/Gui/Viewport/Viewport.cs:275-308 | under the default map, pressing an extra button keeps the action and the rubber band; it only records the position and requests a redraw |
| `Gui.PanDragTelescopes` | trunk/monoworks/Gui/Viewport/Viewport.cs:349-379 | the pans of a drag sum to the distance from its start to its end point |
| `Gui.PanDrag` | trunk/monoworks/Gui/Viewport/Viewport.cs:349-379 | a drag while panning makes one pan per step, by the offset from the previous point, each followed by a redraw |
| `Gui.ZoomGesture` | trunk/monoworks/Gui/Viewport/Viewport.cs:275-342 | under the default map, a middle press, a move and a release zoom the camera to exactly the dragged rectangle and end with no action and no band |
| `Dock.NearestUnique` | monoworks/Controls/Dock/DockBook.cs:254-263 | the nearest index is unique for each x |
| `Dock.DockBookSelector.RemakeButtons` | monoworks/Controls/Dock/DockBook.cs:188-202 | exactly one fresh, distinct button per scene, in the scenes' order, and the current scene's buttons alone are selected |
| `Dock.DockBookSelector.UpdateButtons` | monoworks/Controls/Dock/DockBook.cs:221-231 | a button is selected iff there is a current scene and it is the button's scene; positions and sizes are unchanged |
| `Dock.DockBookSelector.RefreshButtons` | monoworks/Controls/Dock/DockBook.cs:207-216 | afterwards a button is selected iff its scene is the current one; when that already held, no selection changes, so a second call changes nothing |
| `Dock.DockBookSelector.NearestIndex` | monoworks/Controls/Dock/DockBook.cs:254-263 | the result is in 0..the number of buttons; x is at or past the middle of every button below it and left of the middle of the one at it, if any; x at or past every middle gives the number of buttons |
| `Dock.DockBookSelector.PositionSlot` | monoworks/Controls/Dock/DockBook.cs:268-284 | succeeds iff the index is non-negative and the row has a button for it; the slot is then Placed: a slot inside the row sits half a button left of its button, one past the end half a button right of the last; it takes the button's size and sits at the book's bottom; on failure the slot is unchanged |
| `Dock.ResizeCalls` | monoworks/Controls/Dock/DockBook.cs:77-80 | every scene in order is resized to the area above the selector |
| `Dock.DockBook.constructor` | monoworks/Controls/Dock/DockBook.cs:37-46 | a new book has no scenes, no current scene and no buttons |
| `Dock.DockBook.OnChildrenChanged` | monoworks/Controls/Dock/DockBook.cs:53-56 | the buttons are remade, one per scene, showing the current selection |
| `Dock.DockBook.SetCurrent` | monoworks/Controls/Dock/DockBook.cs:58-64 | the current scene is set and exactly its buttons are selected |
| `Dock.DockBook.ClickButton` | monoworks/Controls/Dock/DockBook.cs:196-199 | clicking a button makes its scene current and leaves that button selected |
| `Dock.DockBook.ResizeBook` | monoworks/Controls/Dock/DockBook.cs:67-81 | the pane sits at the bottom of the book and every scene is resized to the area above it |
| `Dock.DockBook.Forward` | monoworks/Controls/Dock/DockBook.cs:83-143 | rendering and input go to the current scene only, and only when there is one |
| `Dock.DockBook.SlotTest` | monoworks/Controls/Dock/DockBook.cs:151-161 | a miss gives no slot; a hit gives a fresh slot whose index is the nearest index of x, and which is Placed at the book's height and viewport offset: origin x, origin y and size, as PositionSlot states; it fails iff the row is empty |
| `SceneControls.SolidModeNamesDistinct` | monoworks/Modeling/SceneControls/DrawingController.cs:76-80 | the three solid modes have three distinct names, none of them "Wireframe" |
| `SceneControls.FeaturesOfferedIffOneSketch` | monoworks/Modeling/SceneControls/DrawingController.cs:173-216 | the features toolbar is offered iff exactly one sketch is selected, which is exactly when the feature actions succeed |
| `SceneControls.AddSketchOfferedIffOnePlane` | monoworks/Modeling/SceneControls/DrawingController.cs:173-216 | the add-sketch toolbar is offered iff exactly one plane is selected and the user is not sketching |
| `SceneControls.DrawingController.constructor` | monoworks/Modeling/SceneControls/DrawingController.cs:36-60 | sketching is off, there is no drawing or entity, the north side holds the full-view, export and shading toolbars, and the shading buttons show the solid mode |
| `SceneControls.DrawingController.AddContext` | monoworks/Modeling/SceneControls/DrawingController.cs:143-146 | the context is appended at its side; other sides are unchanged |
| `SceneControls.DrawingController.OnSolidModeChanged` | monoworks/Modeling/SceneControls/DrawingController.cs:113-127 | with the shading toolbar loaded, the button named after the solid mode is selected, the Wireframe button keeps its state and every other is deselected; otherwise nothing changes |
| `SceneControls.DrawingController.SetSolidMode` | monoworks/Modeling/SceneControls/DrawingController.cs:90-108 | the solid mode is set and the shading buttons show it |
| `SceneControls.DrawingController.OnWireframe` | monoworks/Modeling/SceneControls/DrawingController.cs:84-87 | the wireframe follows its button |
| `SceneControls.DrawingController.OnContextChanged` | monoworks/Modeling/SceneControls/DrawingController.cs:173-216 | the primary location is cleared and then holds: the sketch or reference toolbar with no selection; for one entity, add-sketch (plane, not sketching), edit-sketch then features (sketch), edit then delete (other unlocked), nothing (locked); nothing for several; it fails iff there is no drawing |
| `SceneControls.DrawingController.OnSelectionChanged` | monoworks/Modeling/SceneControls/DrawingController.cs:162-167 | the drawing becomes the controller's; its selection decides the contexts; an entity selected alone becomes the last entity; the scene is repainted |
| `SceneControls.DrawingController.Edit` | monoworks/Modeling/SceneControls/DrawingController.cs:255-261 | fails iff no entity has been selected |
| `SceneControls.DrawingController.OnAddSketch` | monoworks/Modeling/SceneControls/DrawingController.cs:309-327 | succeeds iff the last entity is a plane (and there is a drawing); then one fresh sketch on that plane is appended, sketching is on, the selection is empty and the camera turns to the plane before sketching begins; the features, the references' flag and the shading state are kept; on failure nothing changes |
| `SceneControls.DrawingController.OnEditSketch` | monoworks/Modeling/SceneControls/DrawingController.cs:333-349 | succeeds iff the last entity is a sketch (and there is a drawing); then sketching is on, the selection is empty, the camera turns to the sketch's plane and sketching begins; the sketches, features, references' flag and shading state are kept; without a drawing it fails after the camera and interactor calls; for a non-sketch nothing changes |
| `SceneControls.DrawingController.OnEndSketch` | monoworks/Modeling/SceneControls/DrawingController.cs:354-359 | sketching is off, the references are dirty and the contexts are offered again for the unchanged selection, which also sets the last entity; without a drawing it fails and nothing changes |
| `SceneControls.DrawingController.OnApplySketch` | monoworks/Modeling/SceneControls/DrawingController.cs:364-368 | the sketch is applied, then sketching ends as OnEndSketch states, the last entity included |
| `SceneControls.DrawingController.OnCancelSketch` | monoworks/Modeling/SceneControls/DrawingController.cs:373-377 | the sketch is cancelled, then sketching ends as OnEndSketch states, the last entity included |
| `SceneControls.DrawingController.AddFeature` | monoworks/Modeling/SceneControls/DrawingController.cs:441-477 | succeeds iff exactly one sketch is selected; then a fresh feature on that sketch is appended and is selected alone and the last entity, the camera returns to the standard view, and the sketches and references' flag are kept; on failure nothing changes |
| `SceneControls.DrawingController.OnAddExtrusion` | monoworks/Modeling/SceneControls/DrawingController.cs:441-456 | succeeds iff exactly one sketch is selected; then the selection is exactly the new extrusion, which is the last entity and is built on the sketch; the features gain it, the sketches and references' flag are kept and the camera returns to the standard view; on failure nothing changes |
| `SceneControls.DrawingController.OnAddRevolution` | monoworks/Modeling/SceneControls/DrawingController.cs:462-477 | succeeds iff exactly one sketch is selected; then the selection is exactly the new revolution, which is the last entity and is built on the sketch; the features gain it, the sketches and references' flag are kept and the camera returns to the standard view; on failure nothing changes |
| `SceneControls.SketchSession` | monoworks/Modeling/SceneControls/DrawingController.cs:309-368 | adding a sketch on the selected plane and applying it ends with sketching off, one more sketch and the reference toolbar offered |

## Left out

- Floating point: colours take the converted bytes `(byte)(x * 255f)` as inputs; the
  float constructors (monoworks/Rendering/Color.cs:83-98) and the float getters are not
  modelled.
- Rendering.Color.SetHsv: takes floor(h/60) and the bytes of v, t, p and q as inputs; the
  HSV arithmetic and its rounding are not modelled.
- Rendering.Color.Inverse: the source goes through floats and back to bytes. The model takes
  that round trip as exact.
- OpenGL, Cairo and Qt calls are traces or flags:
  - texture generation and upload (`hasTexture`, `uploads`);
  - the clip-plane equations (the clip planes are a set);
  - display lists, colours and vertices (a call trace);
  - cursors, `UpdateGL` and camera calls (requests);
  - `PaintGL` frame-rate timing and `InitializeGL` are left out.
- Camera math is given as parameters: `ScreenToWorld`, `WorldToScreen`, and the bounds'
  `Translate`, `Expand` and `Prettify`. This covers the panned or expanded bounds of
  HandlePan/HandleDolly, the fitted bounds of ComputeGeometry and the projections of
  TitlePosition. The bounds' `Resize`, which Line.ComputeGeometry uses, is not a parameter:
  the model defines it as a componentwise min/max (`Model.Resize`).
- Plotting.AxesBox.OnViewportResized: the viewport size times the camera scaling is given as
  half extents; the edge factor and the float arithmetic stay in the caller.
- Plotting.TitlePosition: restarts only at the first corner. The source restarts at every
  corner for which `Array.IndexOf` returns 0, which for a degenerate box whose corners
  compare equal can also be a later corner; Vector's equality is not part of this model.
- AxesBox rendering (RenderOpaque, RenderOverlay), tick and axis generation, and the
  Outside arrangement's edge placement are not modelled.
- Plotting.AxesBox.ComputeGeometry: the children's own ComputeGeometry calls are left out.
- Plotting.AxesBox.constructor: the grid's default visibility lives in the Grid class, which
  is not part of this model, so it is a parameter.
- Viewport positions are ints, as Qt's `QMouseEvent.X()` is, so `(int)lastX` is the
  identity. Timers, the document, the wheel's modifier handling and the callbacks other
  than OnZoom (OnDolly, OnPan, OnRotate: camera calls only) are traces.
- monoworks/Rendering/ViewportControls/ViewportController.cs is not part of this model. It
  is glue between actions, the camera and buttons.
- Mwx/UiManager loading, resource streams and `Console.WriteLine` in DrawingController.cs
  are I/O.
- AddSketch, AddRefPoint and the other actions that only write to the console are not
  modelled; neither are Delete, the sketch tools (OnSketchLine etc., whose interactor is
  not part of this model), the empty OnAddSweep, or OnProjectionChanged.
- SceneControls.DrawingController.OnSelectionChanged: the event subscription and
  unsubscription of the old and new drawing are left out; the call itself is modelled.
- The entity manager, the drawing, the entities, the scenes, the buttons, the grid and the
  rubber band are minimal stand-ins holding only what the core reads and writes. New
  entities are modelled unlocked.
- Base calls into DockContainer, Actor, Renderable and Plottable are left out. So are the
  selector's own Render and its geometry (MinSize, RenderSize); its buttons' positions are
  read as they are.
- The DockBookSelector reads the book's children and current scene through a back
  reference; here they are passed in as parameters.
- Base.First and Base.Last: where the source indexes an empty list and throws
  ArgumentOutOfRangeException, these require a non-empty list. Their callers in the model
  check for emptiness first.
- Base.ListString: the items are given as the strings their `ToString()` returns, so the
  NullReferenceException that a null item raises is not modelled.
- Controls.ActorPane.RenderTransparent: `Control.RenderImage` is not part of this model.
  The model assumes it leaves the control's dirty flag as it was.
- Model.Line.AddMomento: `base.AddMomento()` is not part of this model. The model assumes it
  appends one momento and leaves the current momento where it was.
- Model.Sketchable.SolidPoints and Model.Sketchable.WireframePoints: the getters return the
  stored arrays. As functions they cannot change any state, so they carry no contract
  of their own.

## Findings

| source | as written | input that shows it | evidently intended | confidence | as-written member | corrected member |
|---|---|---|---|---|---|---|
| trunk/monoworks/Plotting/AxesBox.cs:624-661 | in Select2D, HandleZoom writes plot-bound dimensions 1 and 2 for the Top/Bottom views and 0 and 1 for Left/Right | a rubber-band zoom in the Top view: it overwrites z, the dimension along the view whose clip planes 4 and 5 EnableClipping switches off, and leaves x, which is on screen, unchanged | the two on-screen dimensions, as OnViewportResized (146-166) and EnableClipping use them: x and y from the top, y and z from the side | not executed; medium, since the camera's axis conventions are not part of this model | `Plotting.ZoomAsWrittenWritesDepth` | `Plotting.AxesBox.HandleZoom` |
