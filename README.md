# DrawFlow core, modelled in Dafny

DrawFlow is a collaborative whiteboard. A browser client keeps a scene of shapes: rectangles, circles, rhombi, lines, arrows, pencil strokes and text. The scene has an undo/redo history and a selection, and is kept in a central store. Pointer tools edit the scene: select/move/resize/rotate, the eraser, the arrow and the circle. A properties panel restyles, deletes and duplicates the selection, and the page wires the store to the URL's room, the theme and a text toolbar. A canvas manager holds the viewport (zoom and pan) and the draft previews. When the client is in a room, every edit is sent through a reconnecting WebSocket manager to a relay server. The relay keeps the room's shape list in a key-value store and broadcasts each event to the room. Other clients apply the events to their stores and draw each other's cursors.

The model has these modules:

- `Shapes` and `Wire` (shapes.dfy): the shape, style and box values, and the client and server messages.
- `Scene` (scene.dfy): list operations on shapes and selections, and the undo/redo timeline.
- `Editor` (editor.dfy): the browser store as pure reducers. A reducer takes a state to a `Step`: the new state plus an outbox of effects (a message sent, a local save, the connection closed).
- `SceneStore` (scene_store.dfy): the store as a mutable class. Each method applies the matching reducer.
- `FlowEditor` (flow_editor.dfy): the smaller store of the `drawFlow/` copy, as a class.
- `HitTest` (hittest.dfy): hit testing and shape bounds.
- `SelectGeometry` (selectmath.dfy): the select tool's geometry: marquee, handles, resize and scale, arrow midpoints, translation.
- `Selecting` (selecttool.dfy): the select tool as a class, over the store and the canvas manager.
- `Canvas` (canvas.dfy): the canvas manager's viewport, drafts and selection bounds.
- `Tools` (tools.dfy): the eraser, arrow and circle tools.
- `Panel` (panel.dfy): the properties panel.
- `Page` (page.dfy): the draw page: room parameter, theme remap, font controls, text toolbar.
- `Presence` (presence.dfy): the canvas component's cursor presence.
- `Connection` (connection.dfy): the browser's WebSocket manager.
- `Relay` (relay.dfy): the relay server.

These become parameters:

- Trigonometry: the point rotation of hit testing and the angle function of the rotate gesture.
- Text measurement.
- Random ids.
- Clock readings.
- The contents of local storage.
- The failure of a key-value store call.

## Model

| member | source | states |
|---|---|---|
| Scene.WithoutId | apps/web/store/editor.ts:286-306 | the filtered list keeps exactly the shapes without the id; nothing is removed when the id is absent, and something is when it is present |
| Scene.MapId | apps/web/store/editor.ts:329-351 | same length and order; exactly the shapes with the id are passed through the updater |
| Scene.FirstIndex | drawFlow/apps/websocket/src/index.ts:273-286 | the index of the first shape with the id, None exactly when no shape has it |
| Scene.FindById | apps/web/store/editor.ts:455-477 | Some exactly when a shape has the id, and then a member with that id |
| Scene.DropId | apps/web/store/editor.ts:286-306 | the id leaves the selection and every other id stays |
| Scene.Toggle | apps/web/store/editor.ts:125-130 | flips membership of the one id, appending it when absent |
| Scene.SelectedShapes | drawFlow/apps/web/components/custom/PropertiesPanel/PropertiesPanel.tsx:58-61 | exactly the shapes whose id is selected (membership; the order is SelectedShapesInOrder) |
| Scene.SelectedShapesInOrder | drawFlow/apps/web/components/custom/PropertiesPanel/PropertiesPanel.tsx:58-61 | the selection is the order-preserving filter: it distributes over concatenation and keeps a single shape exactly when its id is selected |
| Scene.UndoThenRedo | apps/web/store/editor.ts:352-385 | redo after undo restores the timeline |
| Scene.RedoThenUndo | apps/web/store/editor.ts:352-385 | undo after redo restores the timeline |
| Scene.UndoCommit | apps/web/store/editor.ts:308-327 | undoing an edit restores the previous shapes and leaves only that edit to redo |
| Scene.TravelKeepsDepth | apps/web/store/editor.ts:352-385 | undo and redo move one entry between the stacks and lose none |
| Scene.UndoNDepth | apps/web/store/editor.ts:352-368 | n undos shorten the past by n |
| Scene.RedoNUndoN | apps/web/store/editor.ts:352-385 | n redos after n undos restore the timeline |
| Scene.CommitAllDepth | apps/web/store/editor.ts:308-351 | each edit deepens the past by one |
| Scene.UndoRedoSymmetry | apps/web/store/editor.ts:352-385 | undoing all of a series of edits and redoing them gives the final scene back |
| Editor.WellFormedShapes | apps/web/store/editor.ts:386-412 | keeps exactly the well-formed stored entries, in order |
| Editor.DropOwnedCursors | apps/web/store/editor.ts:556-564 | removes every cursor owned by (or keyed by) the leaving user and keeps every other one |
| Editor.EditsPersistOnce | apps/web/store/editor.ts:139-159 | outside a room each edit saves the new list once; in a room add, remove and set-shapes send exactly one shape_add, shape_remove or shapes_sync, and update sends at most one shape_update for that id, none when the id is absent |
| Editor.EditsCommit | apps/web/store/editor.ts:286-351 | every edit commits the edited list to the history: the old list is pushed on the past and the future is dropped |
| Editor.UndoRedoFollowHistory | apps/web/store/editor.ts:352-385 | the store's undo and redo are the timeline's; with an empty stack they do nothing; otherwise they clear the selection |
| Editor.UndoThenRedo | apps/web/store/editor.ts:352-385 | undo then redo restores the shapes and both stacks |
| Editor.UndoAddShape | apps/web/store/editor.ts:308-368 | an added shape goes at the end, and undoing it restores the list before it |
| Editor.RemoveShapeEffect | apps/web/store/editor.ts:286-306 | removes exactly the shapes with the id, unselects only it, sends the removal in a room, and adds one history entry |
| Editor.UpdateShapeEffect | apps/web/store/editor.ts:329-351 | updates exactly the shapes with the id, in place; sends an update exactly when the updated list has the id; a missing id changes no shape |
| Editor.UpdateKeepingIdIsSent | apps/web/store/editor.ts:329-351 | with an id-preserving updater, the update is sent exactly when the id exists |
| Editor.ToggleFlipsOne | apps/web/store/editor.ts:125-130 | toggling flips that id's membership only, and leaves the shapes alone |
| Editor.ToolLockRule | apps/web/store/editor.ts:161-183 | a locked store only switches to the tool it has or to the hand tool; a refused switch changes nothing; locking resets to select and clears the selection |
| Editor.StylePatchRule | apps/web/store/editor.ts:186-216 | for each of the eight style fields, a patch that supplies it overrides it and one that does not keeps it; patching is idempotent and leaves the scene alone |
| Editor.SetToolLockedRule | apps/web/store/editor.ts:172-183 | locking sets the select tool and clears the selection; unlocking only clears the flag; toggling is setting the negation |
| Editor.CursorUpdateRemove | apps/web/store/editor.ts:590-609 | a cursor update stores that user's cursor stamped now; removal deletes exactly that key |
| Editor.LoadKeepsWellFormed | apps/web/store/editor.ts:386-412 | storage is read only outside a room, keeps only well-formed entries, and a load resets the history |
| Editor.InboundKeepsHistory | apps/web/store/editor.ts:413-584 | no inbound message but room_joined touches the history, the room or the outbox |
| Editor.OtherRoomIgnored | apps/web/store/editor.ts:455-564 | an event for another room changes nothing |
| Editor.ShapeAddedAppendsIfAbsent | apps/web/store/editor.ts:455-477 | shape_added appends exactly when the id is new, otherwise nothing changes |
| Editor.WithoutIdIdempotent | apps/web/store/editor.ts:489-500 | removing an id twice is removing it once |
| Editor.DropIdIdempotent | apps/web/store/editor.ts:489-500 | unselecting an id twice is unselecting it once |
| Editor.InboundIdempotent | apps/web/store/editor.ts:455-508 | receiving the same shape event twice, as the echoing sender does, equals receiving it once |
| Editor.RoomJoinedSeeding | apps/web/store/editor.ts:422-453 | a non-empty room list replaces the scene; an empty room with local shapes keeps them and syncs them up once; the history is emptied |
| Editor.OwnCursorIgnored | apps/web/store/editor.ts:510-532 | this tab's own echoed cursor changes nothing |
| Editor.OtherCursorStored | apps/web/store/editor.ts:510-532 | another client's cursor is stored under its client id (else its user id), stamped now, other cursors kept |
| Editor.Receive | apps/web/store/editor.ts:413-584 | any message but room_joined sends nothing and changes at most the scene, the selection and the cursors; user_left deletes exactly the entry keyed by the user id, as written |
| Editor.UserLeftAsWrittenKeepsCursor | apps/web/store/editor.ts:556-564 | after cursor_moved from user u1 with client id c1, the store's user_left for u1 leaves cursor c1 in place, where the corrected reducer removes it |
| Editor.UserLeftRemovesOwnCursors | apps/web/store/editor.ts:556-564 | the corrected user_left removes every cursor of the leaving user and keeps every other one unchanged |
| Editor.UserLeftDeviation | apps/web/store/editor.ts:556-564 | the store's user_left keeps every cursor the corrected one keeps, and the two agree exactly when the user has no cursor under another key |
| Editor.DisconnectClearsCursors | apps/web/store/editor.ts:585-589 | disconnecting clears the cursors, keeps the shapes and closes the connection |
| SceneStore.EditorStore.constructor | apps/web/store/editor.ts:85-121 | the store starts in the initial state with nothing emitted |
| SceneStore.EditorStore.Apply | apps/web/store/editor.ts:139-159 | a reducer step becomes the store's state and its effects are emitted in order |
| SceneStore.EditorStore.SetRoomId | apps/web/store/editor.ts:131-137 | sets the room; leaving the room closes the connection |
| SceneStore.EditorStore.SetSelectedShapeIds | apps/web/store/editor.ts:123 | the store's selection becomes the given ids |
| SceneStore.EditorStore.ToggleSelectedShape | apps/web/store/editor.ts:125-130 | the store becomes the toggle reducer's state |
| SceneStore.EditorStore.SetTool | apps/web/store/editor.ts:161-171 | the store follows the tool-lock rule |
| SceneStore.EditorStore.SetToolLocked | apps/web/store/editor.ts:172-177 | the store follows the lock reducer |
| SceneStore.EditorStore.ToggleToolLocked | apps/web/store/editor.ts:178-183 | the store follows the toggle-lock reducer |
| SceneStore.EditorStore.SetCurrentStyle | apps/web/store/editor.ts:186-189 | the current style takes the patch |
| SceneStore.EditorStore.SyncStyleFromShape | apps/web/store/editor.ts:194-205 | each style field the shape has overrides the current style |
| SceneStore.EditorStore.SetShapes | apps/web/store/editor.ts:139-159 | replaces the shapes with a history entry and emits the save or sync |
| SceneStore.EditorStore.RemoveShape | apps/web/store/editor.ts:286-306 | the store becomes the remove reducer's state and emits its effect |
| SceneStore.EditorStore.AddShape | apps/web/store/editor.ts:308-327 | the store becomes the add reducer's state and emits its effect |
| SceneStore.EditorStore.UpdateShape | apps/web/store/editor.ts:329-351 | the store becomes the update reducer's state and emits its effect |
| SceneStore.EditorStore.Undo | apps/web/store/editor.ts:352-368 | the store follows the undo reducer |
| SceneStore.EditorStore.Redo | apps/web/store/editor.ts:369-385 | the store follows the redo reducer |
| SceneStore.EditorStore.LoadShapesFromStorage | apps/web/store/editor.ts:386-412 | the store follows the load reducer |
| SceneStore.EditorStore.OnMessage | apps/web/store/editor.ts:413-584 | an inbound message is applied by the receive reducer, user_left as written |
| SceneStore.EditorStore.UpdateCursor | apps/web/store/editor.ts:590-602 | stores the cursor |
| SceneStore.EditorStore.RemoveCursor | apps/web/store/editor.ts:603-609 | removes the cursor |
| SceneStore.EditorStore.DisconnectWebSocket | apps/web/store/editor.ts:585-589 | clears the cursors and emits the close |
| FlowEditor.FlowStore.constructor | drawFlow/apps/web/store/editor.ts:36-45 | an empty scene and history, no room, the select tool, no selection |
| FlowEditor.FlowStore.SetSelectedShapeIds | drawFlow/apps/web/store/editor.ts:50 | sets the selection only |
| FlowEditor.FlowStore.ToggleSelectedShape | drawFlow/apps/web/store/editor.ts:51-56 | flips that id's membership |
| FlowEditor.FlowStore.SetRoomId | drawFlow/apps/web/store/editor.ts:57 | sets the room only |
| FlowEditor.FlowStore.SetTool | drawFlow/apps/web/store/editor.ts:67 | sets the tool with no lock rule |
| FlowEditor.FlowStore.SetShapes | drawFlow/apps/web/store/editor.ts:59-65 | commits the new list and clears the selection |
| FlowEditor.FlowStore.RemoveShape | drawFlow/apps/web/store/editor.ts:68-74 | commits the list without the id and unselects it |
| FlowEditor.FlowStore.AddShape | drawFlow/apps/web/store/editor.ts:76-81 | commits the list with the shape appended |
| FlowEditor.FlowStore.UpdateShape | drawFlow/apps/web/store/editor.ts:83-90 | commits the mapped list, same length |
| FlowEditor.FlowStore.Undo | drawFlow/apps/web/store/editor.ts:91-102 | follows the timeline's undo and clears the selection when it moved |
| FlowEditor.FlowStore.Redo | drawFlow/apps/web/store/editor.ts:103-114 | follows the timeline's redo and clears the selection when it moved |
| HitTest.MinOf | drawFlow/apps/web/lib/utils/hitTest.ts:173-236 | the least element of a non-empty list |
| HitTest.MaxOf | drawFlow/apps/web/lib/utils/hitTest.ts:173-236 | the greatest element of a non-empty list |
| HitTest.PointsBox | drawFlow/apps/web/lib/utils/hitTest.ts:213-232 | a box of non-negative size containing every point, with edges on points |
| HitTest.ShapeBounds | drawFlow/apps/web/lib/utils/hitTest.ts:173-236 | a box per shape kind; None only for a pencil with no points |
| HitTest.HitCircleByDistance | drawFlow/apps/web/lib/utils/hitTest.ts:58-67 | the squared test is the distance test: within radius plus tolerance |
| HitTest.HitLineIff | drawFlow/apps/web/lib/utils/hitTest.ts:130-148 | a zero-length segment is never hit, nor is a point whose projection factor lies outside [0, 1]; otherwise the point hits exactly when its distance to the projection is within tolerance |
| HitTest.RectExample | drawFlow/apps/web/lib/utils/hitTest.ts:119-121 | a point inside a box hits it and a far point does not |
| HitTest.LineHitExample | drawFlow/apps/web/lib/utils/hitTest.ts:130-148 | a point 3 away from a segment hits it |
| HitTest.LineMissExample | drawFlow/apps/web/lib/utils/hitTest.ts:130-148 | a point 20 away misses |
| HitTest.HitLineNearSegment | drawFlow/apps/web/lib/utils/hitTest.ts:130-148 | a hit on a segment lies within tolerance of the segment's box |
| HitTest.QuadraticAt | drawFlow/apps/web/lib/utils/hitTest.ts:238-243 | the curve starts at its start and ends at its end |
| HitTest.SampledCurveEnds | drawFlow/apps/web/lib/utils/hitTest.ts:150-160 | the first and last samples are the curve's ends |
| HitTest.HitQuadratic | drawFlow/apps/web/lib/utils/hitTest.ts:150-160 | the sampling loop answers the sampled-segment hit predicate |
| HitTest.QuadraticWithin | drawFlow/apps/web/lib/utils/hitTest.ts:238-243 | a curve point lies in any box holding its three control points |
| HitTest.PointInPolygon | drawFlow/apps/web/lib/utils/hitTest.ts:100-117 | the ray-casting loop answers the odd-crossings predicate |
| HitTest.OneSideOutside | drawFlow/apps/web/lib/utils/hitTest.ts:100-117 | a point above or below every vertex is outside |
| HitTest.HitRhombus | drawFlow/apps/web/lib/utils/hitTest.ts:69-99 | answers inside-or-near-an-edge, and a hit lies near the rhombus's box |
| HitTest.RhombusExample | drawFlow/apps/web/lib/utils/hitTest.ts:69-99 | the centre hits and a point just outside misses |
| HitTest.HitPencil | drawFlow/apps/web/lib/utils/hitTest.ts:122-129 | hits exactly near some consecutive pair; fewer than two points never hit |
| HitTest.TestPoint | drawFlow/apps/web/lib/utils/hitTest.ts:9-17 | an unrotated shape is tested at the point itself |
| HitTest.HitTest | drawFlow/apps/web/lib/utils/hitTest.ts:8-57 | the dispatch answers the per-kind hit predicate |
| HitTest.RectTextHitIff | drawFlow/apps/web/lib/utils/hitTest.ts:20-30 | an unrotated rectangle or text is hit exactly inside its box |
| HitTest.HitImpliesNearBounds | drawFlow/apps/web/lib/utils/hitTest.ts:8-57 | a hit on an unrotated shape lies within tolerance of its bounds |
| SelectGeometry.IntersectsSymmetric | drawFlow/apps/web/lib/shapes/SelectTool.ts:327-337 | box intersection is symmetric |
| SelectGeometry.IntersectsIffCommonPoint | drawFlow/apps/web/lib/shapes/SelectTool.ts:327-337 | two boxes intersect exactly when they share a point (edges included) |
| SelectGeometry.TouchingBoxesIntersect | drawFlow/apps/web/lib/shapes/SelectTool.ts:327-337 | boxes touching at an edge intersect; separated ones do not |
| SelectGeometry.MarqueeRect | drawFlow/apps/web/lib/shapes/SelectTool.ts:192-202 | the marquee is the normalised box with both corners on its edges |
| SelectGeometry.HandlePositions | drawFlow/apps/web/lib/shapes/SelectTool.ts:339-375 | eight handles |
| SelectGeometry.FirstInSquare | drawFlow/apps/web/lib/shapes/SelectTool.ts:339-375 | None exactly when no handle square holds the point |
| SelectGeometry.FirstInSquareIsFirst | drawFlow/apps/web/lib/shapes/SelectTool.ts:339-375 | a found handle is the earliest one, in list order, whose square holds the point |
| SelectGeometry.GetHandleHit | drawFlow/apps/web/lib/shapes/SelectTool.ts:339-375 | the scan over the padded box's handles gives the first hit handle |
| SelectGeometry.ArrowMidPoint | drawFlow/apps/web/lib/shapes/SelectTool.ts:826-845 | without a control point, the segment's midpoint |
| SelectGeometry.MidPointRoundTrip | drawFlow/apps/web/lib/shapes/SelectTool.ts:826-851 | the control point computed for a midpoint yields that midpoint, and conversely |
| SelectGeometry.MidPointOnCurve | drawFlow/apps/web/lib/shapes/SelectTool.ts:826-845 | the midpoint handle is the curve at t = 0.5 |
| SelectGeometry.LineHandleHit | drawFlow/apps/web/lib/shapes/SelectTool.ts:393-409 | endpoint handles only for lines and arrows, the control handle only for arrows, start first |
| SelectGeometry.ResizedBox | drawFlow/apps/web/lib/shapes/SelectTool.ts:441-503 | the resized box is at least the minimum size on both axes |
| SelectGeometry.ScaleFactor | drawFlow/apps/web/lib/shapes/SelectTool.ts:504-518 | the factor maps the old extent to the new one; 1 on a flat axis |
| SelectGeometry.GetResizedBounds | drawFlow/apps/web/lib/shapes/SelectTool.ts:441-519 | returns the handle's anchor and the factors of the clamped box |
| SelectGeometry.ScalePoint | drawFlow/apps/web/lib/shapes/SelectTool.ts:714-793 | the anchor is fixed and a unit factor keeps that axis |
| SelectGeometry.ResizeRespectsMinSize | drawFlow/apps/web/lib/shapes/SelectTool.ts:441-519 | scaled extents are at least the minimum size and factors are positive |
| SelectGeometry.EdgeHandlesKeepOtherAxis | drawFlow/apps/web/lib/shapes/SelectTool.ts:441-519 | edge handles keep the other axis when it is at least the minimum size |
| SelectGeometry.ResizeClampExample | drawFlow/apps/web/lib/shapes/SelectTool.ts:441-503 | shrinking past the minimum clamps to 12 |
| SelectGeometry.ScaledSelectionIsResizedBox | drawFlow/apps/web/lib/shapes/SelectTool.ts:411-547 | scaling the selection box about the anchor gives exactly the clamped resized box |
| SelectGeometry.ScaleShape | drawFlow/apps/web/lib/shapes/SelectTool.ts:714-793 | keeps id and style; a circle's radius scales by the mean factor |
| SelectGeometry.ScaleRectBounds | drawFlow/apps/web/lib/shapes/SelectTool.ts:714-793 | a scaled rectangle's bounds are the scaled box |
| SelectGeometry.ScaleTextBounds | drawFlow/apps/web/lib/shapes/SelectTool.ts:714-793 | a scaled text's bounds are the scaled box |
| SelectGeometry.ScaleCircleBounds | drawFlow/apps/web/lib/shapes/SelectTool.ts:714-793 | uniform scaling maps a circle's bounds to the scaled box |
| SelectGeometry.Translate | drawFlow/apps/web/lib/shapes/SelectTool.ts:215-262 | keeps id and style |
| SelectGeometry.TranslateCompose | drawFlow/apps/web/lib/shapes/SelectTool.ts:215-262 | two moves are one move by the sum |
| SelectGeometry.TranslateZero | drawFlow/apps/web/lib/shapes/SelectTool.ts:215-262 | a zero move changes nothing |
| SelectGeometry.DragStepsCompose | drawFlow/apps/web/lib/shapes/SelectTool.ts:201-262 | incremental drag steps add up to the whole drag |
| SelectGeometry.TranslateKeepsLineHit | drawFlow/apps/web/lib/shapes/SelectTool.ts:215-262 | moving a segment and the point by the same offset keeps the line hit answer |
| SelectGeometry.TranslateKeepsRectHit | drawFlow/apps/web/lib/shapes/SelectTool.ts:215-262 | moving a shape and the point together keeps the hit answer |
| SelectGeometry.AdjustLineEndpoint | drawFlow/apps/web/lib/shapes/SelectTool.ts:549-583 | moves exactly the dragged end (or the arrow's midpoint through its control point) and nothing else |
| SelectGeometry.JsDiv | drawFlow/apps/web/lib/shapes/SelectTool.ts:504-518 | a nonzero divisor divides |
| SelectGeometry.ScaleFactorsAsWritten | drawFlow/apps/web/lib/shapes/SelectTool.ts:504-518 | the written factors agree with the model's wherever the extent is nonzero |
| SelectGeometry.FlatSelectionResizeAsWritten | drawFlow/apps/web/lib/shapes/SelectTool.ts:504-518 | a horizontal line's selection has height 0 and the written factor is not a finite number |
| SelectGeometry.FlatSelectionResizeCorrected | drawFlow/apps/web/lib/shapes/SelectTool.ts:504-518 | with the guard, a flat axis keeps factor 1 and points keep that coordinate |
| Selecting.UpdateEach | drawFlow/apps/web/lib/shapes/SelectTool.ts:213-263 | per-id updates keep the count of shapes and everything but the scene and history; each effect is a save or an update for the room |
| Selecting.UpdateEachMeaning | drawFlow/apps/web/lib/shapes/SelectTool.ts:213-263 | each shape ends edited exactly when its id is in the list |
| Selecting.WithRotation | drawFlow/apps/web/lib/shapes/SelectTool.ts:175-186 | sets the rotation and keeps the id |
| Selecting.DragMovesSelection | drawFlow/apps/web/lib/shapes/SelectTool.ts:201-263 | a drag moves exactly the selected shapes by the pointer delta |
| Selecting.ResizeScalesOriginals | drawFlow/apps/web/lib/shapes/SelectTool.ts:411-439 | a resize replaces each selected shape by its scaled original |
| Selecting.UpdateSelected | drawFlow/apps/web/lib/shapes/SelectTool.ts:213-263 | the store loop applies the per-id updates in order |
| Selecting.Originals | drawFlow/apps/web/lib/shapes/SelectTool.ts:100-106 | keyed by the selected ids present in the scene, each a member of the scene |
| Selecting.CollectOriginals | drawFlow/apps/web/lib/shapes/SelectTool.ts:100-106 | the loop builds that map |
| Selecting.CaughtIds | drawFlow/apps/web/lib/shapes/SelectTool.ts:289-304 | exactly the ids of shapes whose bounds meet the marquee |
| Selecting.CollectCaught | drawFlow/apps/web/lib/shapes/SelectTool.ts:289-304 | the loop builds that list |
| Selecting.EnclosedIsCaught | drawFlow/apps/web/lib/shapes/SelectTool.ts:289-304 | a shape inside the marquee is caught |
| Selecting.Single | drawFlow/apps/web/lib/shapes/SelectTool.ts:58-110 | the one selected shape, when exactly one is selected |
| Selecting.HandlePress | drawFlow/apps/web/lib/shapes/SelectTool.ts:58-110 | the rotate knob and endpoint handles need a single selection; box handles need a bounded single selection |
| Selecting.Classify | drawFlow/apps/web/lib/shapes/SelectTool.ts:58-143 | a press is ignored when locked, else goes to a handle, else to the topmost shape hit, else to empty canvas |
| Selecting.SelectPressed | drawFlow/apps/web/lib/shapes/SelectTool.ts:122-134 | the pressed shape's selection rule is applied to the store |
| Selecting.SelectTool.constructor | drawFlow/apps/web/lib/shapes/SelectTool.ts:13-39 | idle: no drag, marquee, resize or rotation |
| Selecting.SelectTool.OnPointerDown | drawFlow/apps/web/lib/shapes/SelectTool.ts:58-143 | per press class: nothing when locked; rotate, endpoint or box handle starts that gesture; a shape is selected and a drag starts; empty canvas clears the selection and starts a marquee |
| Selecting.SelectTool.OnPointerMove | drawFlow/apps/web/lib/shapes/SelectTool.ts:168-263 | per gesture: rotate, endpoint drag, resize, move or marquee, each as the matching store update |
| Selecting.SelectTool.RotateSelection | drawFlow/apps/web/lib/shapes/SelectTool.ts:174-186 | sets the single selected shape's rotation to start rotation plus the swept angle |
| Selecting.SelectTool.DragSelection | drawFlow/apps/web/lib/shapes/SelectTool.ts:201-263 | moves the selection by the delta since the last point |
| Selecting.SelectTool.ResizeSelection | drawFlow/apps/web/lib/shapes/SelectTool.ts:411-439 | replaces the selection by the originals scaled to the clamped box |
| Selecting.SelectTool.OnPointerUp | drawFlow/apps/web/lib/shapes/SelectTool.ts:269-318 | a locked tool only resets the gesture; a rotation just ends; otherwise a marquee selects exactly the shapes it caught and the gesture is reset |
| Selecting.SelectTool.OnDeactivate | drawFlow/apps/web/lib/shapes/SelectTool.ts:41-54 | every gesture is dropped and the marquee preview cleared |
| Selecting.GesturesKeepScene | drawFlow/apps/web/lib/shapes/SelectTool.ts:168-263 | gestures change only the shapes and history, never the selection, tool or room |
| Selecting.MarqueeSelects | drawFlow/apps/web/lib/shapes/SelectTool.ts:289-304 | after a marquee an id is selected exactly when its shape meets the rectangle |
| Selecting.PressSelectsOnly | drawFlow/apps/web/lib/shapes/SelectTool.ts:122-134 | pressing an unselected shape without shift selects it alone |
| Canvas.ClampZoom | drawFlow/apps/web/lib/canvas/CanvasManager.ts:82-97 | the zoom is clamped to [0.1, 4], unchanged inside it |
| Canvas.CanvasPointAt | drawFlow/apps/web/lib/canvas/CanvasManager.ts:679-689 | the canvas point maps back to the screen point |
| Canvas.Zoomed | drawFlow/apps/web/lib/canvas/CanvasManager.ts:82-97 | the zoom is in range and the canvas point under the centre stays put; no centre keeps the pan |
| Canvas.PanAboutFixes | drawFlow/apps/web/lib/canvas/CanvasManager.ts:82-97 | the new pan keeps the centre's canvas coordinate |
| Canvas.ZoomInOutRoundTrip | drawFlow/apps/web/lib/canvas/CanvasManager.ts:99-105 | zooming in then out about a point restores the viewport |
| Canvas.PanAboutInverse | drawFlow/apps/web/lib/canvas/CanvasManager.ts:82-97 | re-panning back to the old zoom restores the pan |
| Canvas.ShapeBounds | drawFlow/apps/web/lib/canvas/CanvasManager.ts:225-289 | None only for an empty pencil; a line or arrow's box holds both ends |
| Canvas.BoundsAgreeWithHitTest | drawFlow/apps/web/lib/canvas/CanvasManager.ts:225-289 | except for arrows, the canvas bounds are the hit-test bounds |
| Canvas.ArrowBoundsWithinHitTest | drawFlow/apps/web/lib/canvas/CanvasManager.ts:225-289 | an arrow's canvas bounds lie within its hit-test bounds |
| Canvas.ArrowBoundsIgnoreControl | drawFlow/apps/web/lib/canvas/CanvasManager.ts:225-289 | the canvas bounds of an arrow ignore its control point |
| Canvas.AccumulateKind | drawFlow/apps/web/lib/canvas/CanvasManager.ts:174-200 | empty exactly for no shapes; not-a-number exactly when some pencil is empty |
| Canvas.AccumulateContains | drawFlow/apps/web/lib/canvas/CanvasManager.ts:174-200 | the span covers every shape's bounds and each edge is some shape's edge |
| Canvas.ExtentOfMeaning | drawFlow/apps/web/lib/canvas/CanvasManager.ts:174-200 | no selection, non-finite or the tight box covering every selected shape |
| Canvas.CanvasManager.constructor | drawFlow/apps/web/lib/canvas/CanvasManager.ts:14-25 | zoom 1, no pan, no drafts |
| Canvas.CanvasManager.ToCanvasPoint | drawFlow/apps/web/lib/canvas/CanvasManager.ts:679-689 | the screen point inverted through the viewport |
| Canvas.CanvasManager.SetZoom | drawFlow/apps/web/lib/canvas/CanvasManager.ts:82-97 | the viewport becomes the clamped zoom about the centre |
| Canvas.CanvasManager.ZoomIn | drawFlow/apps/web/lib/canvas/CanvasManager.ts:99-101 | zoom times 1.1 about the centre |
| Canvas.CanvasManager.ZoomOut | drawFlow/apps/web/lib/canvas/CanvasManager.ts:103-105 | zoom over 1.1 about the centre |
| Canvas.CanvasManager.ResetZoom | drawFlow/apps/web/lib/canvas/CanvasManager.ts:124-128 | zoom 1, pan 0 |
| Canvas.CanvasManager.Pan | drawFlow/apps/web/lib/canvas/CanvasManager.ts:44-48 | the pan shifts by the delta |
| Canvas.CanvasManager.SetDraftCircle | drawFlow/apps/web/lib/canvas/CanvasManager.ts:129-133 | sets only the circle draft |
| Canvas.CanvasManager.ClearDraftCircle | drawFlow/apps/web/lib/canvas/CanvasManager.ts:134-136 | clears only the circle draft |
| Canvas.CanvasManager.SetSelectionRect | drawFlow/apps/web/lib/canvas/CanvasManager.ts:139-149 | sets only the marquee preview |
| Canvas.CanvasManager.ClearSelectionRect | drawFlow/apps/web/lib/canvas/CanvasManager.ts:291-293 | clears only the marquee preview |
| Canvas.CanvasManager.StartDraftArrow | drawFlow/apps/web/lib/canvas/CanvasManager.ts:294-300 | starts a zero-length arrow draft |
| Canvas.CanvasManager.SetDraftArrow | drawFlow/apps/web/lib/canvas/CanvasManager.ts:301-308 | updates the arrow draft only when one exists |
| Canvas.CanvasManager.StartDraftLine | drawFlow/apps/web/lib/canvas/CanvasManager.ts:310-315 | starts a zero-length line draft |
| Canvas.CanvasManager.SetDraftLine | drawFlow/apps/web/lib/canvas/CanvasManager.ts:320-326 | updates the line draft only when one exists |
| Canvas.CanvasManager.SetDraftPencil | drawFlow/apps/web/lib/canvas/CanvasManager.ts:327-331 | sets only the pencil draft |
| Canvas.CanvasManager.SetDraftRect | drawFlow/apps/web/lib/canvas/CanvasManager.ts:332-335 | sets only the rectangle draft |
| Canvas.CanvasManager.SetDraftRhom | drawFlow/apps/web/lib/canvas/CanvasManager.ts:336-340 | sets only the rhombus draft |
| Canvas.CanvasManager.ClearAllDrafts | drawFlow/apps/web/lib/canvas/CanvasManager.ts:341-350 | no drafts remain; the viewport is kept |
| Canvas.CanvasManager.GetSelectionBounds | drawFlow/apps/web/lib/canvas/CanvasManager.ts:174-200 | the extent of the selected shapes: none exactly when nothing is selected, else a box covering each |
| Canvas.ScanExtent | drawFlow/apps/web/lib/canvas/CanvasManager.ts:174-200 | the running min/max loop computes the left-to-right accumulation of the boxes |
| Canvas.SelectionExtentMeaning | drawFlow/apps/web/lib/canvas/CanvasManager.ts:174-200 | the extent of the selection covers exactly the selected shapes of the scene |
| Tools.LastMatch | apps/web/lib/shapes/EraserTool.ts:23-36 | the last index satisfying the test, None when none does |
| Tools.LastMatchAt | apps/web/lib/shapes/EraserTool.ts:30-35 | the last match is the index with no later match |
| Tools.WithoutIdConcat | apps/web/store/editor.ts:286-306 | removal by id distributes over concatenation |
| Tools.RemoveOneOfUnique | apps/web/lib/shapes/EraserTool.ts:23-36 | with unique ids, removing a shape's id removes just that position |
| Tools.FindTopmost | apps/web/lib/shapes/EraserTool.ts:30-35 | the backward loop finds the topmost shape under the point |
| Tools.EraserTool.constructor | apps/web/lib/shapes/EraserTool.ts:7 | not erasing |
| Tools.EraserTool.EraseAtPoint | apps/web/lib/shapes/EraserTool.ts:23-36 | removes the topmost shape under the point, or nothing when none is |
| Tools.EraserTool.OnPointerDown | apps/web/lib/shapes/EraserTool.ts:9-12 | starts erasing; the topmost shape hit is removed, with the removal's shape_remove or local save appended to the outbox, and a miss changes nothing |
| Tools.EraserTool.OnPointerMove | apps/web/lib/shapes/EraserTool.ts:14-17 | only while erasing: the topmost shape hit is removed, with its shape_remove or local save appended to the outbox; otherwise nothing changes |
| Tools.EraserTool.OnPointerUp | apps/web/lib/shapes/EraserTool.ts:19-21 | stops erasing |
| Tools.EraseRemovesTopmost | apps/web/lib/shapes/EraserTool.ts:23-36 | with unique ids, erasing leaves exactly the scene without the topmost hit shape |
| Tools.CommittedArrow | apps/web/lib/shapes/ArrowTool.ts:32-51 | the committed arrow has the drag's ends, the current style and its control point at the midpoint |
| Tools.CommittedArrowIsStraight | apps/web/lib/shapes/ArrowTool.ts:43-46 | a control point at the midpoint draws a straight segment |
| Tools.ArrowTool.constructor | apps/web/lib/shapes/ArrowTool.ts:6-9 | idle at the origin |
| Tools.ArrowTool.OnPointerDown | apps/web/lib/shapes/ArrowTool.ts:11-20 | starts a drag and a zero-length draft |
| Tools.ArrowTool.OnPointerMove | apps/web/lib/shapes/ArrowTool.ts:22-31 | while drawing, the end follows the pointer and an existing arrow draft becomes the segment from the start to the pointer; otherwise nothing changes |
| Tools.ArrowTool.OnPointerUp | apps/web/lib/shapes/ArrowTool.ts:32-51 | while drawing, adds the arrow with the current style and clears the drafts; the tool is left as it is, since the store's reset after an action changes nothing |
| Tools.RadiusCoversDrag | drawFlow/apps/web/lib/shapes/CircleTool.ts:18-34 | the radius covers the drag on both axes, and without shift it is the drag distance |
| Tools.CircleTool.constructor | drawFlow/apps/web/lib/shapes/CircleTool.ts:6-8 | not drawing |
| Tools.CircleTool.OnPointerDown | drawFlow/apps/web/lib/shapes/CircleTool.ts:10-17 | starts a zero-radius draft at the point |
| Tools.CircleTool.OnPointerMove | drawFlow/apps/web/lib/shapes/CircleTool.ts:18-34 | while drawing, the draft's radius follows the drag |
| Tools.CircleTool.OnPointerUp | drawFlow/apps/web/lib/shapes/CircleTool.ts:35-57 | a draft of radius at least 2 is added as a circle; the draft is cleared |
| Panel.Ids | drawFlow/apps/web/components/custom/PropertiesPanel/PropertiesPanel.tsx:111-115 | the ids of the shapes, position by position |
| Panel.PrimaryIsFirstInSceneOrder | drawFlow/apps/web/components/custom/PropertiesPanel/PropertiesPanel.tsx:100-109 | the primary shape is the first selected shape in scene order, None exactly when none is selected |
| Panel.SelectedIdsDistinct | drawFlow/apps/web/components/custom/PropertiesPanel/PropertiesPanel.tsx:58-61 | with unique scene ids, the selected shapes' ids are distinct |
| Panel.SelectedUnique | drawFlow/apps/web/components/custom/PropertiesPanel/PropertiesPanel.tsx:58-61 | the selected shapes keep unique ids |
| Panel.SelectedIdsMeaning | drawFlow/apps/web/components/custom/PropertiesPanel/PropertiesPanel.tsx:58-61 | a scene shape's id is among the selected shapes' ids exactly when it is selected |
| Panel.Restyle | drawFlow/apps/web/components/custom/PropertiesPanel/PropertiesPanel.tsx:117-156 | a pick sets its one style field; a stroke pick also recolours text; the id and kind are kept |
| Panel.PatchSetsCurrentStyle | drawFlow/apps/web/components/custom/PropertiesPanel/PropertiesPanel.tsx:117-156 | the pick becomes the current style for new shapes |
| Panel.UpdateStyleEffect | drawFlow/apps/web/components/custom/PropertiesPanel/PropertiesPanel.tsx:111-156 | exactly the selected shapes are restyled; the selection, room and cursors are kept |
| Panel.UpdateStyleOnStore | drawFlow/apps/web/components/custom/PropertiesPanel/PropertiesPanel.tsx:111-156 | sets the current style, then updates each selected shape |
| Panel.RemoveEach | drawFlow/apps/web/components/custom/PropertiesPanel/PropertiesPanel.tsx:158-162 | one effect per removed id |
| Panel.Kept | drawFlow/apps/web/components/custom/PropertiesPanel/PropertiesPanel.tsx:158-162 | exactly the shapes whose id is not listed |
| Panel.RemoveEachMeaning | drawFlow/apps/web/components/custom/PropertiesPanel/PropertiesPanel.tsx:158-162 | the scene keeps exactly the unlisted shapes, the listed ids are unselected, one history entry per id |
| Panel.DeleteRemovesSelected | drawFlow/apps/web/components/custom/PropertiesPanel/PropertiesPanel.tsx:158-162 | deleting removes exactly the selected shapes and leaves no selected id naming an old shape |
| Panel.DeleteSelection | drawFlow/apps/web/components/custom/PropertiesPanel/PropertiesPanel.tsx:158-162 | removes each selected shape in turn |
| Panel.RemoveAll | drawFlow/apps/web/components/custom/PropertiesPanel/PropertiesPanel.tsx:158-162 | the loop removes each listed id in turn, with the same scene and outbox as RemoveEach |
| Panel.Duplicate | drawFlow/apps/web/components/custom/PropertiesPanel/PropertiesPanel.tsx:164-227 | a copy with the new id and the same style, offset by 12 on both axes |
| Panel.DuplicateIsShiftedCopy | drawFlow/apps/web/components/custom/PropertiesPanel/PropertiesPanel.tsx:164-227 | except for an arrow's control point, the copy is the shape moved by (12, 12) |
| Panel.Duplicates | drawFlow/apps/web/components/custom/PropertiesPanel/PropertiesPanel.tsx:164-227 | one copy per selected shape, in order |
| Panel.DuplicateEachAppends | drawFlow/apps/web/components/custom/PropertiesPanel/PropertiesPanel.tsx:164-227 | the copies are appended in order, one history entry and one add per copy |
| Panel.DuplicateSelection | drawFlow/apps/web/components/custom/PropertiesPanel/PropertiesPanel.tsx:164-227 | the loop adds each copy in turn |
| Page.OnRoomParam | apps/web/components/draw/DrawPageClient.tsx:147-160 | sets the room; without one, disconnects and loads local storage; with one, asks to connect |
| Page.LocalModeLoadsStorage | apps/web/components/draw/DrawPageClient.tsx:151-154 | outside a room, the local storage is loaded |
| Page.OnUnmount | apps/web/components/draw/DrawPageClient.tsx:162-167 | unmounting in a room disconnects |
| Page.Inks | apps/web/components/draw/DrawPageClient.tsx:226-262 | the theme's old and new ink differ |
| Page.Repaint | apps/web/components/draw/DrawPageClient.tsx:226-262 | only the old ink in stroke (and text colour) becomes the new ink; id and kind are kept |
| Page.Repainted | apps/web/components/draw/DrawPageClient.tsx:226-262 | each shape repainted, in order |
| Page.RepaintChangesIffInked | apps/web/components/draw/DrawPageClient.tsx:226-262 | the scene changes exactly when some shape uses the old ink |
| Page.RepaintRoundTrip | apps/web/components/draw/DrawPageClient.tsx:226-262 | repainting back restores a scene that had no new ink |
| Page.RepaintShapes | apps/web/components/draw/DrawPageClient.tsx:226-262 | the loop repaints and reports whether anything changed |
| Page.ThemeRemapEffect | apps/web/components/draw/DrawPageClient.tsx:226-262 | the remap keeps the selection and commits one edit when anything was inked |
| Page.ThemeRoundTrip | apps/web/components/draw/DrawPageClient.tsx:226-262 | dark then light restores a scene that had no white ink |
| Page.ThemeSync.constructor | apps/web/components/draw/DrawPageClient.tsx:83 | remembers the theme |
| Page.ThemeSync.OnChange | apps/web/components/draw/DrawPageClient.tsx:226-262 | on a change between light and dark, applies the remap and remembers the theme |
| Page.ThemeInk | apps/web/components/draw/DrawPageClient.tsx:215-220 | dark never keeps black ink and light never keeps white; only the stroke of the current style changes |
| Page.FontControlsKeepRange | apps/web/components/draw/DrawPageClient.tsx:431-458 | the buttons and the field keep the font size in [8, 96] |
| Page.FontStepsUndo | apps/web/components/draw/DrawPageClient.tsx:431-458 | away from the bounds, plus and minus undo each other; a typed size is clamped |
| Page.Merge | apps/web/components/draw/DrawPageClient.tsx:110-137 | the patch's fields override the style |
| Page.TextsOf | apps/web/components/draw/DrawPageClient.tsx:88-97 | exactly the text shapes, in order |
| Page.FindText | apps/web/components/draw/DrawPageClient.tsx:88-97 | a text shape with the id, None when there is none |
| Page.TextTargets | apps/web/components/draw/DrawPageClient.tsx:88-97 | the text being edited, or else the selected texts |
| Page.TextsOfUnique | apps/web/components/draw/DrawPageClient.tsx:88-97 | the texts of a scene with unique ids have unique ids |
| Page.Retext | apps/web/components/draw/DrawPageClient.tsx:110-137 | a text takes the style, with its width measured when a measure is given; other shapes are unchanged |
| Page.TextToolbar.constructor | apps/web/components/draw/DrawPageClient.tsx:73-75 | remembers the style, no text being edited |
| Page.TextToolbar.ApplyTextUpdates | apps/web/components/draw/DrawPageClient.tsx:110-137 | with no target nothing changes; otherwise the style is merged and each target updated |
| Page.TextToolbar.SyncFromShape | apps/web/store/editor.ts:206-215 | the text style becomes SyncedTextStyle of the shape; nothing else changes |
| Page.SyncedTextStyleMeaning | apps/web/store/editor.ts:206-215 | a non-text shape leaves the text style; a text takes its size and family and the layout fields it has; a text just restyled gives back the applied style |
| Page.TextUpdateEffect | apps/web/components/draw/DrawPageClient.tsx:110-137 | exactly the selected text shapes take the new style |
| Presence.LiveCursors | apps/web/components/custom/Canvas/Canvas.tsx:162-178 | keeps exactly the cursors seen within three seconds |
| Presence.CursorLifetime | apps/web/components/custom/Canvas/Canvas.tsx:162-178 | a cursor stamped at t survives sweeps until t + 3000 and no later |
| Presence.SelfCursorId | apps/web/components/custom/Canvas/Canvas.tsx:28-38 | the stored id is reused, a generated one is stored, and "self" without a window |
| Presence.CursorIdStable | apps/web/components/custom/Canvas/Canvas.tsx:28-38 | a second look-up returns the first id |
| Presence.Sweep | apps/web/components/custom/Canvas/Canvas.tsx:162-178 | the loop keeps the live cursors and reports whether any went stale |
| Presence.CanvasPresence.constructor | apps/web/components/custom/Canvas/Canvas.tsx:25-38 | the cursor id is the looked-up one; nothing sent |
| Presence.CanvasPresence.OnToolChange | apps/web/components/custom/Canvas/Canvas.tsx:40-44 | leaving the select tool clears the selection |
| Presence.CanvasPresence.OnPointerMove | apps/web/components/custom/Canvas/Canvas.tsx:120-144 | schedules a send for the latest point only |
| Presence.CanvasPresence.OnSendTimer | apps/web/components/custom/Canvas/Canvas.tsx:120-144 | past the threshold of 2, sends the position when connected to a room, and records it |
| Presence.SweepStore | apps/web/components/custom/Canvas/Canvas.tsx:162-178 | the store's cursors become the live ones, written only when some went stale |
| Connection.Pow2 | apps/web/lib/websocket/websocket.ts:73-80 | the doubling factor is positive (a helper; the schedule is DelayGrowth and BackoffSchedule) |
| Connection.DelayGrowth | apps/web/lib/websocket/websocket.ts:73-80 | j further attempts multiply the wait by 2^j |
| Connection.Delays | apps/web/lib/websocket/websocket.ts:73-80 | the waits of the first n attempts |
| Connection.BackoffSchedule | apps/web/lib/websocket/websocket.ts:73-80 | each wait doubles the previous one: 1, 2, 4, 8 and 16 seconds |
| Connection.Dispatches | apps/web/lib/websocket/websocket.ts:51-57 | one delivery per handler, in registration order |
| Connection.WebSocketManager.constructor | apps/web/lib/websocket/websocket.ts:6-19 | no socket, no room, no handlers |
| Connection.WebSocketManager.Connect | apps/web/lib/websocket/websocket.ts:21-89 | already open on the room resolves at once and connecting rejects, both leaving every field unchanged; otherwise a new, not yet open socket for the room, marked as connecting |
| Connection.WebSocketManager.Send | apps/web/lib/websocket/websocket.ts:100-106 | written only when the socket is open |
| Connection.WebSocketManager.OnOpen | apps/web/lib/websocket/websocket.ts:40-48 | resets the attempts, sends join_room for the socket's room, resolves |
| Connection.WebSocketManager.OnMessage | apps/web/lib/websocket/websocket.ts:51-57 | a parsed message goes to every handler in order |
| Connection.WebSocketManager.OnError | apps/web/lib/websocket/websocket.ts:60-65 | stops connecting and rejects |
| Connection.WebSocketManager.OnClose | apps/web/lib/websocket/websocket.ts:67-83 | forgets the socket and schedules a reconnect while a room is set and attempts remain |
| Connection.WebSocketManager.OnReconnectTimer | apps/web/lib/websocket/websocket.ts:74-80 | reconnects to the room when one is still set, with Connect's three outcomes; nothing changes without a room or when the connect is refused, and a start records the new socket, connecting and not open |
| Connection.WebSocketManager.Disconnect | apps/web/lib/websocket/websocket.ts:91-98 | no room, no socket and no handlers, so no reconnect follows |
| Connection.WebSocketManager.Subscribe | apps/web/lib/websocket/websocket.ts:108-110 | registers a handler once |
| Connection.WebSocketManager.Unsubscribe | apps/web/lib/websocket/websocket.ts:110-112 | removes exactly that handler |
| Connection.Without | apps/web/lib/websocket/websocket.ts:110-112 | drops exactly that handler |
| Connection.WithoutKeepsDistinct | apps/web/lib/websocket/websocket.ts:108-113 | the handler set stays without repeats |
| Connection.SubscribeThenUnsubscribe | apps/web/lib/websocket/websocket.ts:108-113 | registering then unregistering a new handler restores the list |
| Relay.FindUser | drawFlow/apps/websocket/src/index.ts:180-197 | the first connection on the socket, None exactly when none is |
| Relay.BroadcastMeaning | drawFlow/apps/websocket/src/index.ts:206-213 | a socket hears the broadcast exactly when its user is in the room, open and not excluded |
| Relay.ExcludedHearsNothing | drawFlow/apps/websocket/src/index.ts:206-213 | the excluded socket hears nothing |
| Relay.SenderHearsEcho | drawFlow/apps/websocket/src/index.ts:229-237 | without an exclusion the sender hears its own event |
| Relay.Upsert | drawFlow/apps/websocket/src/index.ts:273-286 | replaces the first entry with the id or appends; other entries are kept |
| Relay.FirstIndexUnique | drawFlow/apps/websocket/src/index.ts:273-286 | the first index with the id is the one with no earlier match |
| Relay.UpsertIdempotent | drawFlow/apps/websocket/src/index.ts:273-286 | upserting the same shape twice is upserting it once |
| Relay.Joined | drawFlow/apps/websocket/src/index.ts:54-77 | the room is added, and a non-empty name replaces the old one |
| Relay.JoinAtMostOnce | drawFlow/apps/websocket/src/index.ts:54-77 | a room is listed at most once, and re-joining changes no rooms |
| Relay.LeftEventsMeaning | drawFlow/apps/websocket/src/index.ts:180-197 | every close event is a user_left for one of the leaver's rooms, to a member |
| Relay.SpliceOut | drawFlow/apps/websocket/src/index.ts:180-197 | removing the entry keeps the table well formed and drops the socket |
| Relay.RelayServer.constructor | drawFlow/apps/websocket/src/index.ts:33 | an empty table and store |
| Relay.RelayServer.SetStoreOpen | drawFlow/apps/websocket/src/index.ts:12-24 | only the store flag changes |
| Relay.RelayServer.Connect | drawFlow/apps/websocket/src/index.ts:42-48 | a new entry with no rooms and the default name |
| Relay.RelayServer.BroadcastToRoom | drawFlow/apps/websocket/src/index.ts:206-213 | logs the broadcast's deliveries |
| Relay.RelayServer.JoinRoom | drawFlow/apps/websocket/src/index.ts:54-118 | records the name and room, tells the room on a first join, and answers with the room's list |
| Relay.RelayServer.PersistThenBroadcast | drawFlow/apps/websocket/src/index.ts:216-255 | writes when the store is up and the call succeeds, then broadcasts to the whole room |
| Relay.RelayServer.ShapeAdd | drawFlow/apps/websocket/src/index.ts:216-255 | appends with no duplicate check, then broadcasts |
| Relay.RelayServer.ShapeUpdate | drawFlow/apps/websocket/src/index.ts:257-303 | upserts, then broadcasts |
| Relay.RelayServer.ShapeRemove | drawFlow/apps/websocket/src/index.ts:305-344 | drops every entry with the id, then broadcasts |
| Relay.RelayServer.ShapesSync | drawFlow/apps/websocket/src/index.ts:346-377 | overwrites the list, then broadcasts |
| Relay.RelayServer.CursorMove | drawFlow/apps/websocket/src/index.ts:151-167 | relayed to the room, sender included, only from a member |
| Relay.RelayServer.RejectMalformed | drawFlow/apps/websocket/src/index.ts:169-177 | answers an error |
| Relay.RelayServer.Handle | drawFlow/apps/websocket/src/index.ts:50-168 | per message kind, the store and log of that handler: shape_add appends, shape_update upserts, shape_remove filters the id, shapes_sync overwrites (each written only when the store is up and the call succeeds, then broadcast); cursor_move relays only from a member; join_room answers with room_joined; user_update changes nothing |
| Relay.RelayServer.Close | drawFlow/apps/websocket/src/index.ts:180-197 | the socket closes, each joined room hears user_left, and the entry leaves the table |
| Relay.LeaverNotNotified | drawFlow/apps/websocket/src/index.ts:180-197 | the leaver hears none of its own user_left events |

## Left out

- Rotation and angles: trigonometry is not modelled. Hit testing takes the point rotation as a parameter, and the rotate gesture takes the angle function as one. Rotated shapes are therefore hit-tested only through that parameter.
- Text measurement (`measureText`): a parameter of `Page.Retext`. Double-click text editing in the select tool (`onDoubleClick`, `startTextEdit`, `commitTextEdit`, `cleanupTextEdit`) is left out, because it is DOM editing.
- The store's `currentTextStyle` and `editingTextId` fields live on `Page.TextToolbar`, the class that updates them.
- SceneStore.EditorStore.SyncStyleFromShape: updates only the current style. The text-style half of `syncStyleFromShape` is `Page.TextToolbar.SyncFromShape`, because the text style lives on the toolbar. The select tool's press calls only the store half, so the model does not capture that pressing a text shape also updates the toolbar's text style.
- Editor.SyncStyleFromShape: like the store's, takes only the current style from the shape; the text style is `Page.SyncedTextStyle`.
- SelectGeometry.GetResizedBounds: returns the guarded factors of SelectGeometry.ScaleFactor, which use 1 on an axis of zero extent. The source divides by that zero extent and gets a non-finite factor; see Findings, and SelectGeometry.ScaleFactorsAsWritten for the unguarded factors.
- SelectGeometry.ScaleFactor: is the corrected factor, with 1 on a flat axis, not the source's unguarded `newW / w` and `newH / h`.
- Selecting.ResizeUpdate: the resize step of a pointer move uses the guarded factors of SelectGeometry.GetResizedBounds.
- Selecting.SelectTool.ResizeSelection: scales a flat selection by 1 on its flat axis. The source gives non-finite coordinates there.
- Selecting.SelectTool.OnPointerMove: its resize branch uses the guarded factor of GetResizedBounds, so a flat selection keeps its flat axis instead of taking non-finite coordinates.
- Random ids (`crypto.randomUUID`, the relay's user ids) are arguments of the operations that use them.
- Clocks and timers: `now` is an argument; debounce and reconnect timers are method calls.
- The network, the key-value store and local storage are parameters and effects. A failing store call is the `fault` argument.
- Asynchronous interleaving: each handler runs to completion.
- The relay's `chat` message is not modelled, because it stores nothing and only echoes.
- Room settings, the canvas background and the theme's persistence in local storage are not modelled.
- Painting the canvas, the panel's drag position, the hand tool and the drawFlow copies of the page and canvas components are not modelled.
- `Page.OnRoomParam`: it returns the room to connect to instead of calling `connectWebSocket`. The connection is modelled separately by `Connection.WebSocketManager`.
- `HitTest.ShapeBounds`: a pencil with no points has no box in the model. In the source the box is infinite.
- `Canvas.ExtentOfMeaning`: the not-a-number result is an extent kind of its own, not an IEEE value.
- `Page.TypedFont`: a typed font size that is not a number (`Number()` giving NaN) is not modelled.
- `Tools.CircleTool.OnPointerMove`: the Euclidean distance is supplied by the caller together with its defining equation, because square roots are not modelled.
- Floating point is modelled as exact reals.

## Findings

| source | as written | input that shows it | evidently intended | confidence | as-written member | corrected member |
|---|---|---|---|---|---|---|
| drawFlow/apps/web/lib/shapes/SelectTool.ts:504-518 | the resize scale factors divide by the selection's width and height | a single horizontal line selected (height 0) and resized by a top handle: `sy` is 0/0 or x/0 | a flat axis keeps scale factor 1 | not executed | SelectGeometry.FlatSelectionResizeAsWritten | SelectGeometry.FlatSelectionResizeCorrected |
| apps/web/store/editor.ts:556-564 | `user_left` deletes the cursor keyed by the leaving user's id, but cursors are keyed by the sender's client id (lines 510-532) | `cursor_moved` from user "u1" with client id "c1", then `user_left` for "u1": cursor "c1" stays until the sweep | every cursor of the leaving user is removed | not executed | Editor.UserLeftAsWrittenKeepsCursor | Editor.UserLeftRemovesOwnCursors |
