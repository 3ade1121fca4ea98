/** The mutable scene store: each method applies the matching `Editor` transformer to its fields. */
module SceneStore {
  import opened Shapes
  import opened Wire
  import Scene
  import opened Editor

  class EditorStore {
    var shapes: seq<Shape>
    var roomId: Option<Id>
    var past: seq<seq<Shape>>
    var future: seq<seq<Shape>>
    var currentTool: Tool
    var isToolLocked: bool
    var selectedShapeIds: seq<Id>
    var cursors: map<Id, Cursor>
    var currentStyle: Style
    /** Every side effect performed so far, oldest first. */
    var outbox: seq<Effect>

    function Model(): State
      reads this
    {
      State(shapes, roomId, past, future, currentTool, isToolLocked, selectedShapeIds, cursors, currentStyle)
    }

    constructor()
      ensures Model() == Initial && outbox == []
    {
      shapes, roomId, past, future := [], None, [], [];
      currentTool, isToolLocked, selectedShapeIds := SelectTool, false, [];
      cursors, currentStyle, outbox := map[], DefaultStyle, [];
    }

    /** Applies one step: the new state replaces the old and its effects join the outbox. */
    method Apply(step: Step)
      modifies this
      ensures Model() == step.state && outbox == old(outbox) + step.outbox
    {
      var s := step.state;
      shapes, roomId, past, future := s.shapes, s.roomId, s.past, s.future;
      currentTool, isToolLocked, selectedShapeIds := s.currentTool, s.isToolLocked, s.selected;
      cursors, currentStyle := s.cursors, s.currentStyle;
      outbox := outbox + step.outbox;
    }

    method SetRoomId(id: Option<Id>)
      modifies this
      ensures Model() == old(Model()).(roomId := id)
      ensures outbox == old(outbox) + (if id.None? then [CloseConnection] else [])
    {
      roomId := id;
      if id.None? {
        outbox := outbox + [CloseConnection];
      }
    }

    method SetSelectedShapeIds(ids: seq<Id>)
      modifies this
      ensures Model() == Editor.SetSelectedShapeIds(old(Model()), ids) && outbox == old(outbox)
    {
      selectedShapeIds := ids;
    }

    method ToggleSelectedShape(id: Id)
      modifies this
      ensures Model() == Editor.ToggleSelectedShape(old(Model()), id) && outbox == old(outbox)
    {
      selectedShapeIds := if id in selectedShapeIds then Scene.DropId(selectedShapeIds, id) else selectedShapeIds + [id];
    }

    method SetTool(tool: Tool)
      modifies this
      ensures Model() == Editor.SetTool(old(Model()), tool) && outbox == old(outbox)
    {
      if isToolLocked && currentTool != tool && tool != HandTool {
        return;
      }
      currentTool := tool;
    }

    method SetToolLocked(locked: bool)
      modifies this
      ensures Model() == Editor.SetToolLocked(old(Model()), locked) && outbox == old(outbox)
    {
      isToolLocked := locked;
      if locked {
        currentTool := SelectTool;
        selectedShapeIds := [];
      }
    }

    method ToggleToolLocked()
      modifies this
      ensures Model() == Editor.ToggleToolLocked(old(Model())) && outbox == old(outbox)
    {
      if !isToolLocked {
        currentTool := SelectTool;
        selectedShapeIds := [];
      }
      isToolLocked := !isToolLocked;
    }

    method SetCurrentStyle(patch: Style)
      modifies this
      ensures Model() == Editor.SetCurrentStyle(old(Model()), patch) && outbox == old(outbox)
    {
      currentStyle := Editor.SetCurrentStyle(Model(), patch).currentStyle;
    }

    method SyncStyleFromShape(s: Shape)
      modifies this
      ensures Model() == Editor.SyncStyleFromShape(old(Model()), s) && outbox == old(outbox)
    {
      SetCurrentStyle(s.style);
    }

    method SetShapes(newShapes: seq<Shape>)
      modifies this
      ensures Model() == Editor.SetShapes(old(Model()), newShapes).state
      ensures outbox == old(outbox) + Editor.SetShapes(old(Model()), newShapes).outbox
    {
      match roomId {
        case None => outbox := outbox + [SaveLocal(newShapes)];
        case Some(room) => outbox := outbox + [Send(ShapesSync(room, newShapes))];
      }
      past := past + [shapes];
      future := [];
      shapes := newShapes;
      selectedShapeIds := [];
    }

    method RemoveShape(id: Id)
      modifies this
      ensures Model() == Editor.RemoveShape(old(Model()), id).state
      ensures outbox == old(outbox) + Editor.RemoveShape(old(Model()), id).outbox
    {
      var newShapes := Scene.WithoutId(shapes, id);
      match roomId {
        case None => outbox := outbox + [SaveLocal(newShapes)];
        case Some(room) => outbox := outbox + [Send(ShapeRemove(room, id))];
      }
      past := past + [shapes];
      future := [];
      shapes := newShapes;
      selectedShapeIds := Scene.DropId(selectedShapeIds, id);
    }

    method AddShape(shape: Shape)
      modifies this
      ensures Model() == Editor.AddShape(old(Model()), shape).state
      ensures outbox == old(outbox) + Editor.AddShape(old(Model()), shape).outbox
    {
      var newShapes := shapes + [shape];
      match roomId {
        case None => outbox := outbox + [SaveLocal(newShapes)];
        case Some(room) => outbox := outbox + [Send(ShapeAdd(room, shape))];
      }
      past := past + [shapes];
      future := [];
      shapes := newShapes;
    }

    method UpdateShape(id: Id, updater: Shape -> Shape)
      modifies this
      ensures Model() == Editor.UpdateShape(old(Model()), id, updater).state
      ensures outbox == old(outbox) + Editor.UpdateShape(old(Model()), id, updater).outbox
    {
      var newShapes := Scene.MapId(shapes, id, updater);
      var updated := Scene.FindById(newShapes, id);
      match roomId {
        case None => outbox := outbox + [SaveLocal(newShapes)];
        case Some(room) =>
          if updated.Some? {
            outbox := outbox + [Send(ShapeUpdate(room, updated.value))];
          }
      }
      past := past + [shapes];
      future := [];
      shapes := newShapes;
    }

    method Undo()
      modifies this
      ensures Model() == Editor.Undo(old(Model())).state
      ensures outbox == old(outbox) + Editor.Undo(old(Model())).outbox
    {
      if |past| == 0 {
        return;
      }
      var previous := past[|past| - 1];
      if roomId.None? {
        outbox := outbox + [SaveLocal(previous)];
      }
      future := [shapes] + future;
      past := past[..|past| - 1];
      shapes := previous;
      selectedShapeIds := [];
    }

    method Redo()
      modifies this
      ensures Model() == Editor.Redo(old(Model())).state
      ensures outbox == old(outbox) + Editor.Redo(old(Model())).outbox
    {
      if |future| == 0 {
        return;
      }
      var next := future[0];
      if roomId.None? {
        outbox := outbox + [SaveLocal(next)];
      }
      past := past + [shapes];
      future := future[1..];
      shapes := next;
      selectedShapeIds := [];
    }

    method LoadShapesFromStorage(loaded: Option<seq<Stored>>)
      modifies this
      ensures Model() == Editor.LoadShapesFromStorage(old(Model()), loaded) && outbox == old(outbox)
    {
      if roomId.Some? {
        return;
      }
      if loaded.Some? && |loaded.value| > 0 {
        var valid := WellFormedShapes(loaded.value);
        if |valid| > 0 {
          shapes, past, future := valid, [], [];
        }
      }
    }

    /** The message handler installed by `connectWebSocket(joinedRoom)`. */
    method OnMessage(joinedRoom: Id, msg: ServerMessage, selfId: Option<Id>, now: int)
      modifies this
      ensures Model() == Receive(old(Model()), joinedRoom, msg, selfId, now).state
      ensures outbox == old(outbox) + Receive(old(Model()), joinedRoom, msg, selfId, now).outbox
    {
      Apply(Receive(Model(), joinedRoom, msg, selfId, now));
    }

    method UpdateCursor(userId: Id, username: string, x: real, y: real, now: int)
      modifies this
      ensures Model() == Editor.UpdateCursor(old(Model()), userId, username, x, y, now) && outbox == old(outbox)
    {
      cursors := cursors[userId := Cursor(userId, userId, username, x, y, now)];
    }

    method RemoveCursor(userId: Id)
      modifies this
      ensures Model() == Editor.RemoveCursor(old(Model()), userId) && outbox == old(outbox)
    {
      cursors := cursors - {userId};
    }

    method DisconnectWebSocket()
      modifies this
      ensures Model() == Editor.DisconnectWebSocket(old(Model())).state
      ensures outbox == old(outbox) + [CloseConnection]
    {
      outbox := outbox + [CloseConnection];
      cursors := map[];
    }
  }
}
