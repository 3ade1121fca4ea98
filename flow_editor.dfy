/**
 * The earlier, local-only scene store: shapes, undo/redo history, the
 * current tool and the selection, with no persistence and no relay. Its
 * edits are the same commits on the history as the networked store's
 * (`Editor.EditsCommit`), minus the side effects.
 */
module FlowEditor {
  import opened Shapes
  import Scene
  import Editor

  class FlowStore {
    var shapes: seq<Shape>
    var roomId: Option<Id>
    var past: seq<seq<Shape>>
    var future: seq<seq<Shape>>
    var currentTool: Editor.Tool
    var selectedShapeIds: seq<Id>

    /** The shapes and their snapshot stacks. */
    function History(): Scene.Timeline
      reads this
    {
      Scene.Timeline(shapes, past, future)
    }

    constructor()
      ensures History() == Scene.Timeline([], [], [])
      ensures roomId.None? && currentTool == Editor.SelectTool && selectedShapeIds == []
    {
      shapes, roomId, past, future := [], None, [], [];
      currentTool, selectedShapeIds := Editor.SelectTool, [];
    }

    method SetSelectedShapeIds(ids: seq<Id>)
      modifies this
      ensures selectedShapeIds == ids
      ensures History() == old(History()) && roomId == old(roomId) && currentTool == old(currentTool)
    {
      selectedShapeIds := ids;
    }

    method ToggleSelectedShape(id: Id)
      modifies this
      ensures selectedShapeIds == Scene.Toggle(old(selectedShapeIds), id)
      ensures id in selectedShapeIds <==> id !in old(selectedShapeIds)
      ensures History() == old(History()) && roomId == old(roomId) && currentTool == old(currentTool)
    {
      if id in selectedShapeIds {
        selectedShapeIds := Scene.DropId(selectedShapeIds, id);
      } else {
        selectedShapeIds := selectedShapeIds + [id];
      }
    }

    method SetRoomId(id: Option<Id>)
      modifies this
      ensures roomId == id
      ensures History() == old(History()) && currentTool == old(currentTool) && selectedShapeIds == old(selectedShapeIds)
    {
      roomId := id;
    }

    /** No tool lock here: every switch is taken. */
    method SetTool(tool: Editor.Tool)
      modifies this
      ensures currentTool == tool
      ensures History() == old(History()) && roomId == old(roomId) && selectedShapeIds == old(selectedShapeIds)
    {
      currentTool := tool;
    }

    method SetShapes(newShapes: seq<Shape>)
      modifies this
      ensures History() == Scene.Commit(old(History()), newShapes)
      ensures selectedShapeIds == []
      ensures roomId == old(roomId) && currentTool == old(currentTool)
    {
      past := past + [shapes];
      future := [];
      shapes := newShapes;
      selectedShapeIds := [];
    }

    method RemoveShape(id: Id)
      modifies this
      ensures History() == Scene.Commit(old(History()), Scene.WithoutId(old(shapes), id))
      ensures !Scene.HasId(shapes, id)
      ensures selectedShapeIds == Scene.DropId(old(selectedShapeIds), id) && id !in selectedShapeIds
      ensures roomId == old(roomId) && currentTool == old(currentTool)
    {
      past := past + [shapes];
      future := [];
      shapes := Scene.WithoutId(shapes, id);
      selectedShapeIds := Scene.DropId(selectedShapeIds, id);
    }

    method AddShape(shape: Shape)
      modifies this
      ensures History() == Scene.Commit(old(History()), old(shapes) + [shape])
      ensures roomId == old(roomId) && currentTool == old(currentTool) && selectedShapeIds == old(selectedShapeIds)
    {
      past := past + [shapes];
      future := [];
      shapes := shapes + [shape];
    }

    method UpdateShape(id: Id, updater: Shape -> Shape)
      modifies this
      ensures History() == Scene.Commit(old(History()), Scene.MapId(old(shapes), id, updater))
      ensures |shapes| == |old(shapes)|
      ensures roomId == old(roomId) && currentTool == old(currentTool) && selectedShapeIds == old(selectedShapeIds)
    {
      past := past + [shapes];
      future := [];
      shapes := Scene.MapId(shapes, id, updater);
    }

    method Undo()
      modifies this
      ensures History() == Scene.Undo(old(History()))
      ensures selectedShapeIds == if old(past) == [] then old(selectedShapeIds) else []
      ensures roomId == old(roomId) && currentTool == old(currentTool)
    {
      if |past| == 0 {
        return;
      }
      var previous := past[|past| - 1];
      future := [shapes] + future;
      past := past[..|past| - 1];
      shapes := previous;
      selectedShapeIds := [];
    }

    method Redo()
      modifies this
      ensures History() == Scene.Redo(old(History()))
      ensures selectedShapeIds == if old(future) == [] then old(selectedShapeIds) else []
      ensures roomId == old(roomId) && currentTool == old(currentTool)
    {
      if |future| == 0 {
        return;
      }
      var next := future[0];
      past := past + [shapes];
      future := future[1..];
      shapes := next;
      selectedShapeIds := [];
    }
  }
}
