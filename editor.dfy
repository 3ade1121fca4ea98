/**
 * The browser's scene store: shapes, selection, undo/redo history, the tool
 * lock, the remote cursors, and the reducer for messages from the relay.
 * Each action is a pure transformer from the old state to the new one plus
 * the side effects it performs (a local save or a message to the relay),
 * collected in an outbox; `EditorStore` is the mutable store whose methods
 * apply them.
 */
module Editor {
  import opened Shapes
  import opened Wire
  import Scene

  datatype Tool = SelectTool | HandTool | RectTool | RhombusTool | CircleTool | ArrowTool
                | LineTool | PencilTool | TextTool | EraserTool

  /**
   * A remote cursor, keyed in the store by the sender's client id (or its
   * user id when no client id came). `ownerId` is the relay's user id of
   * the sender, kept so that the cursor can be dropped when that user leaves.
   */
  datatype Cursor = Cursor(userId: Id, ownerId: Id, username: string, x: real, y: real, lastSeen: int)

  /** A side effect of an action: a write to local storage, a message to the relay, or closing the connection. */
  datatype Effect = SaveLocal(shapes: seq<Shape>) | Send(msg: ClientMessage) | CloseConnection

  datatype State = State(
    shapes: seq<Shape>,
    roomId: Option<Id>,
    past: seq<seq<Shape>>,
    future: seq<seq<Shape>>,
    currentTool: Tool,
    isToolLocked: bool,
    selected: seq<Id>,
    cursors: map<Id, Cursor>,
    currentStyle: Style)

  /** The new state together with the effects performed, in order. */
  datatype Step = Step(state: State, outbox: seq<Effect>)

  const DefaultStyle := Style(Some("#000000"), Some("transparent"), Some(1.0), Some(1.0),
                              Some(Solid), Some(Precise), Some(Sharp), Some(0.0))

  const Initial := State([], None, [], [], SelectTool, false, [], map[], DefaultStyle)

  /** The shapes and their undo/redo stacks. */
  function History(st: State): Scene.Timeline {
    Scene.Timeline(st.shapes, st.past, st.future)
  }

  // ---------------------------------------------------------------------
  // Selection, tools and style
  // ---------------------------------------------------------------------

  function SetSelectedShapeIds(st: State, ids: seq<Id>): State {
    st.(selected := ids)
  }

  function ToggleSelectedShape(st: State, id: Id): State {
    st.(selected := Scene.Toggle(st.selected, id))
  }

  /** `setTool`: while locked, a switch to another tool other than the hand is refused. */
  function SetTool(st: State, tool: Tool): State {
    if st.isToolLocked && st.currentTool != tool && tool != HandTool then st
    else st.(currentTool := tool)
  }

  function SetToolLocked(st: State, locked: bool): State {
    st.(isToolLocked := locked,
        currentTool := if locked then SelectTool else st.currentTool,
        selected := if locked then [] else st.selected)
  }

  function ToggleToolLocked(st: State): State {
    st.(isToolLocked := !st.isToolLocked,
        currentTool := if !st.isToolLocked then SelectTool else st.currentTool,
        selected := if !st.isToolLocked then [] else st.selected)
  }

  /** `a ?? b` on style fields. */
  function Prefer<T>(a: Option<T>, b: Option<T>): Option<T> {
    if a.Some? then a else b
  }

  /** `setCurrentStyle`: the fields the patch supplies override the current style. */
  function SetCurrentStyle(st: State, patch: Style): State {
    var c := st.currentStyle;
    st.(currentStyle := Style(Prefer(patch.stroke, c.stroke), Prefer(patch.fill, c.fill),
                              Prefer(patch.strokeWidth, c.strokeWidth), Prefer(patch.opacity, c.opacity),
                              Prefer(patch.strokeStyle, c.strokeStyle), Prefer(patch.sloppiness, c.sloppiness),
                              Prefer(patch.edgeStyle, c.edgeStyle), Prefer(patch.rotation, c.rotation)))
  }

  /** `syncStyleFromShape`: each style field the shape has overrides the current one. */
  function SyncStyleFromShape(st: State, s: Shape): State {
    SetCurrentStyle(st, s.style)
  }

  // ---------------------------------------------------------------------
  // Edits
  // ---------------------------------------------------------------------

  /** `setShapes`: replace the list, record history, clear the selection, and save or sync it. */
  function SetShapes(st: State, shapes: seq<Shape>): Step {
    var effects := match st.roomId
      case None => [SaveLocal(shapes)]
      case Some(room) => [Send(ShapesSync(room, shapes))];
    Step(st.(past := st.past + [st.shapes], future := [], shapes := shapes, selected := []), effects)
  }

  /** `removeShape`: drop every shape with the id and unselect it; history is recorded either way. */
  function RemoveShape(st: State, id: Id): Step {
    var newShapes := Scene.WithoutId(st.shapes, id);
    var effects := match st.roomId
      case None => [SaveLocal(newShapes)]
      case Some(room) => [Send(ShapeRemove(room, id))];
    Step(st.(past := st.past + [st.shapes], future := [], shapes := newShapes,
             selected := Scene.DropId(st.selected, id)), effects)
  }

  /** `addShape`: append at the top of the paint order; an id already present is not refused. */
  function AddShape(st: State, shape: Shape): Step {
    var newShapes := st.shapes + [shape];
    var effects := match st.roomId
      case None => [SaveLocal(newShapes)]
      case Some(room) => [Send(ShapeAdd(room, shape))];
    Step(st.(past := st.past + [st.shapes], future := [], shapes := newShapes), effects)
  }

  /** `updateShape`: apply the updater to the shapes with the id; the relay hears of it only if one exists. */
  function UpdateShape(st: State, id: Id, updater: Shape -> Shape): Step {
    var newShapes := Scene.MapId(st.shapes, id, updater);
    var updated := Scene.FindById(newShapes, id);
    var effects := match st.roomId
      case None => [SaveLocal(newShapes)]
      case Some(room) => if updated.Some? then [Send(ShapeUpdate(room, updated.value))] else [];
    Step(st.(past := st.past + [st.shapes], future := [], shapes := newShapes), effects)
  }

  /** `undo`: nothing on an empty `past`; otherwise step back, clear the selection and save if local. */
  function Undo(st: State): Step {
    if st.past == [] then Step(st, [])
    else
      var previous := st.past[|st.past| - 1];
      Step(st.(past := st.past[..|st.past| - 1], future := [st.shapes] + st.future,
               shapes := previous, selected := []),
           if st.roomId.None? then [SaveLocal(previous)] else [])
  }

  /** `redo`: nothing on an empty `future`; otherwise step forward, clear the selection and save if local. */
  function Redo(st: State): Step {
    if st.future == [] then Step(st, [])
    else
      var next := st.future[0];
      Step(st.(past := st.past + [st.shapes], future := st.future[1..],
               shapes := next, selected := []),
           if st.roomId.None? then [SaveLocal(next)] else [])
  }

  /** An entry read back from local storage: a well-formed shape, or anything else. */
  datatype Stored = WellFormed(shape: Shape) | Malformed

  function WellFormedShapes(loaded: seq<Stored>): (r: seq<Shape>)
    ensures |r| <= |loaded|
    ensures forall s :: s in r <==> WellFormed(s) in loaded
  {
    if loaded == [] then []
    else if loaded[0].WellFormed? then [loaded[0].shape] + WellFormedShapes(loaded[1..])
    else WellFormedShapes(loaded[1..])
  }

  /**
   * `loadShapesFromStorage`: outside a room, a stored list with at least one
   * well-formed entry replaces the shapes and empties the history.
   */
  function LoadShapesFromStorage(st: State, loaded: Option<seq<Stored>>): State {
    if st.roomId.Some? then st
    else if loaded.None? || loaded.value == [] then st
    else
      var valid := WellFormedShapes(loaded.value);
      if valid != [] then st.(shapes := valid, past := [], future := []) else st
  }

  // ---------------------------------------------------------------------
  // Inbound messages
  // ---------------------------------------------------------------------

  /** `message.clientId || message.userId` */
  function CursorKey(clientId: Id, userId: Id): Id {
    if clientId != "" then clientId else userId
  }

  /** The cursor map after `user_left` as the store writes it: only the entry keyed by the user id goes. */
  function UserLeftAsWritten(cursors: map<Id, Cursor>, userId: Id): map<Id, Cursor> {
    cursors - {userId}
  }

  /** The cursor map after `user_left`: every cursor the leaving user owns goes. */
  function DropOwnedCursors(cursors: map<Id, Cursor>, userId: Id): (r: map<Id, Cursor>)
    ensures forall k :: k in r ==> r[k].ownerId != userId && k != userId
    ensures forall k :: k in cursors && cursors[k].ownerId != userId && k != userId ==> k in r && r[k] == cursors[k]
    ensures r.Keys <= UserLeftAsWritten(cursors, userId).Keys
  {
    map k | k in cursors && cursors[k].ownerId != userId && k != userId :: cursors[k]
  }

  /** `user_left` as evidently intended: every cursor the leaving user owns goes. */
  function UserLeftCorrected(st: State, room: Id, userId: Id): State {
    if st.roomId == Some(room) then st.(cursors := DropOwnedCursors(st.cursors, userId)) else st
  }

  /**
   * The reducer installed by `connectWebSocket(joinedRoom)`. `selfId` is the
   * cursor id this tab stored for itself, `now` the clock.
   */
  function Receive(st: State, joinedRoom: Id, msg: ServerMessage, selfId: Option<Id>, now: int): (r: Step)
    ensures !msg.RoomJoined? ==> r.outbox == [] && r.state.(shapes := st.shapes, selected := st.selected, cursors := st.cursors) == st
    ensures msg.UserLeft? && st.roomId == Some(msg.roomId) ==>
      r.state.cursors.Keys == st.cursors.Keys - {msg.userId} && forall k :: k in r.state.cursors ==> r.state.cursors[k] == st.cursors[k]
  {
    var here := msg.Error? || st.roomId == Some(msg.roomId);
    match msg
    case RoomJoined(room, shapes) =>
      if room != joinedRoom then Step(st, [])
      else if shapes != [] then Step(st.(shapes := shapes, past := [], future := []), [])
      else if st.shapes != [] then Step(st.(past := [], future := []), [Send(ShapesSync(room, st.shapes))])
      else Step(st.(shapes := [], past := [], future := []), [])
    case ShapeAdded(_, shape) =>
      if here && !Scene.HasId(st.shapes, shape.id) then Step(st.(shapes := st.shapes + [shape]), [])
      else Step(st, [])
    case ShapeUpdated(_, shape) =>
      if here then Step(st.(shapes := Scene.MapId(st.shapes, shape.id, (s: Shape) => shape)), [])
      else Step(st, [])
    case ShapeRemoved(_, id) =>
      if here then Step(st.(shapes := Scene.WithoutId(st.shapes, id), selected := Scene.DropId(st.selected, id)), [])
      else Step(st, [])
    case ShapesSynced(_, shapes) =>
      if here then Step(st.(shapes := shapes), []) else Step(st, [])
    case CursorMoved(_, userId, clientId, username, x, y) =>
      if !here || (selfId.Some? && selfId.value != "" && clientId == selfId.value) then Step(st, [])
      else
        var key := CursorKey(clientId, userId);
        Step(st.(cursors := st.cursors[key := Cursor(key, userId, username, x, y, now)]), [])
    case UserUpdated(_, userId, clientId, username) =>
      var key := CursorKey(clientId, userId);
      if here && key in st.cursors then
        Step(st.(cursors := st.cursors[key := st.cursors[key].(username := username, lastSeen := now)]), [])
      else Step(st, [])
    case UserJoined(_, _, _) => Step(st, [])
    case UserLeft(_, userId) =>
      if here then Step(st.(cursors := UserLeftAsWritten(st.cursors, userId)), []) else Step(st, [])
    case Error(_) => Step(st, [])
  }

  /** `updateCursor`: the cursor is stored under the given id, stamped `now`. */
  function UpdateCursor(st: State, userId: Id, username: string, x: real, y: real, now: int): State {
    st.(cursors := st.cursors[userId := Cursor(userId, userId, username, x, y, now)])
  }

  function RemoveCursor(st: State, userId: Id): State {
    st.(cursors := st.cursors - {userId})
  }

  /** `disconnectWebSocket`: close the connection and forget every cursor. */
  function DisconnectWebSocket(st: State): Step {
    Step(st.(cursors := map[]), [CloseConnection])
  }

  // ---------------------------------------------------------------------
  // Properties
  // ---------------------------------------------------------------------

  predicate SendsAtMostOne(outbox: seq<Effect>, room: Id) {
    |outbox| <= 1 && forall k :: 0 <= k < |outbox| ==> outbox[k].Send? && outbox[k].msg.roomId == room
  }

  /**
   * An edit either saves the new list locally (outside a room) or sends at
   * most one message to its room, never both.
   */
  predicate PersistsOnce(st: State, step: Step) {
    (st.roomId.None? ==> step.outbox == [SaveLocal(step.state.shapes)]) &&
    (st.roomId.Some? ==> SendsAtMostOne(step.outbox, st.roomId.value))
  }

  lemma EditsPersistOnce(st: State, shape: Shape, id: Id, updater: Shape -> Shape, shapes: seq<Shape>)
    ensures PersistsOnce(st, AddShape(st, shape))
    ensures PersistsOnce(st, RemoveShape(st, id))
    ensures PersistsOnce(st, UpdateShape(st, id, updater))
    ensures PersistsOnce(st, SetShapes(st, shapes))
    ensures st.roomId.Some? ==>
      AddShape(st, shape).outbox == [Send(ShapeAdd(st.roomId.value, shape))] &&
      RemoveShape(st, id).outbox == [Send(ShapeRemove(st.roomId.value, id))] &&
      SetShapes(st, shapes).outbox == [Send(ShapesSync(st.roomId.value, shapes))]
    ensures st.roomId.Some? ==> var out := UpdateShape(st, id, updater).outbox;
      (forall k :: 0 <= k < |out| ==> out[k].Send? && out[k].msg.ShapeUpdate? && out[k].msg.shape.id == id) &&
      (!Scene.HasId(st.shapes, id) ==> out == [])
  {
  }

  /** Every edit is a commit on the history: the old list is pushed and the redo branch dropped. */
  lemma EditsCommit(st: State, shape: Shape, id: Id, updater: Shape -> Shape, shapes: seq<Shape>)
    ensures History(AddShape(st, shape).state) == Scene.Commit(History(st), st.shapes + [shape])
    ensures History(RemoveShape(st, id).state) == Scene.Commit(History(st), Scene.WithoutId(st.shapes, id))
    ensures History(UpdateShape(st, id, updater).state) == Scene.Commit(History(st), Scene.MapId(st.shapes, id, updater))
    ensures History(SetShapes(st, shapes).state) == Scene.Commit(History(st), shapes)
  {
  }

  /** Undo and redo move along the history exactly as the history's own undo and redo, and clear the selection when they move. */
  lemma UndoRedoFollowHistory(st: State)
    ensures History(Undo(st).state) == Scene.Undo(History(st))
    ensures History(Redo(st).state) == Scene.Redo(History(st))
    ensures st.past == [] ==> Undo(st) == Step(st, [])
    ensures st.future == [] ==> Redo(st) == Step(st, [])
    ensures st.past != [] ==> Undo(st).state.selected == []
    ensures st.future != [] ==> Redo(st).state.selected == []
  {
  }

  /** Undo then redo restores the shapes and both stacks. */
  lemma UndoThenRedo(st: State)
    requires st.past != []
    ensures var s2 := Redo(Undo(st).state).state;
      s2.shapes == st.shapes && s2.past == st.past && s2.future == st.future
  {
    UndoRedoFollowHistory(st);
    UndoRedoFollowHistory(Undo(st).state);
    Scene.UndoThenRedo(History(st));
  }

  /** Undoing an added shape restores the list before it, whatever its id. */
  lemma UndoAddShape(st: State, shape: Shape)
    ensures AddShape(st, shape).state.shapes == st.shapes + [shape]
    ensures Undo(AddShape(st, shape).state).state.shapes == st.shapes
    ensures Undo(AddShape(st, shape).state).state.past == st.past
    ensures Undo(AddShape(st, shape).state).state.future == [st.shapes + [shape]]
  {
    assert (st.past + [st.shapes])[|st.past|] == st.shapes;
    assert (st.past + [st.shapes])[..|st.past|] == st.past;
  }

  /**
   * `removeShape` removes exactly the shapes with the id and unselects it,
   * and in a room sends the removal even when no shape had the id.
   */
  lemma RemoveShapeEffect(st: State, id: Id)
    ensures var r := RemoveShape(st, id).state;
      !Scene.HasId(r.shapes, id) && (forall s :: s in r.shapes <==> s in st.shapes && s.id != id) &&
      id !in r.selected && (forall o :: o != id ==> (o in r.selected <==> o in st.selected))
    ensures st.roomId.Some? ==> RemoveShape(st, id).outbox == [Send(ShapeRemove(st.roomId.value, id))]
    ensures |RemoveShape(st, id).state.past| == |st.past| + 1
  {
  }

  /**
   * `updateShape` keeps order and every other shape; in a room it sends the
   * updated shape exactly when the id exists.
   */
  lemma UpdateShapeEffect(st: State, id: Id, updater: Shape -> Shape)
    ensures var r := UpdateShape(st, id, updater).state.shapes;
      |r| == |st.shapes| &&
      (forall i :: 0 <= i < |r| ==> r[i] == if st.shapes[i].id == id then updater(st.shapes[i]) else st.shapes[i])
    ensures st.roomId.Some? ==>
      (|UpdateShape(st, id, updater).outbox| == 1 <==> Scene.HasId(Scene.MapId(st.shapes, id, updater), id))
    ensures !Scene.HasId(st.shapes, id) ==> UpdateShape(st, id, updater).state.shapes == st.shapes
  {
  }

  /** With an updater that keeps the id, the update reaches the relay exactly when the id exists. */
  lemma UpdateKeepingIdIsSent(st: State, id: Id, updater: Shape -> Shape)
    requires st.roomId.Some?
    requires forall s :: updater(s).id == s.id
    ensures |UpdateShape(st, id, updater).outbox| == 1 <==> Scene.HasId(st.shapes, id)
  {
    var r := Scene.MapId(st.shapes, id, updater);
    if Scene.HasId(st.shapes, id) {
      var i :| 0 <= i < |st.shapes| && st.shapes[i].id == id;
      assert r[i].id == id;
    }
    if Scene.HasId(r, id) {
      var i :| 0 <= i < |r| && r[i].id == id;
      assert st.shapes[i].id == id;
    }
  }

  /** Toggling flips membership of that one id. */
  lemma ToggleFlipsOne(st: State, id: Id)
    ensures id in ToggleSelectedShape(st, id).selected <==> id !in st.selected
    ensures forall o :: o != id ==> (o in ToggleSelectedShape(st, id).selected <==> o in st.selected)
    ensures ToggleSelectedShape(st, id).shapes == st.shapes
  {
  }

  /** The tool lock: a locked store refuses every switch except to the hand (or to the tool it has). */
  lemma ToolLockRule(st: State, tool: Tool)
    ensures SetTool(st, tool).currentTool == tool <==> !st.isToolLocked || st.currentTool == tool || tool == HandTool
    ensures SetTool(st, tool).currentTool != tool ==> SetTool(st, tool) == st
    ensures ToggleToolLocked(st).isToolLocked == !st.isToolLocked
    ensures !st.isToolLocked ==> ToggleToolLocked(st).currentTool == SelectTool && ToggleToolLocked(st).selected == []
    ensures ToggleToolLocked(ToggleToolLocked(st)).isToolLocked == st.isToolLocked
  {
  }

  /**
   * A style patch overrides exactly the fields it supplies; applying it twice
   * is applying it once, and syncing from a shape with a full style adopts it.
   */
  lemma StylePatchRule(st: State, patch: Style, s: Shape)
    ensures var c := SetCurrentStyle(st, patch).currentStyle;
      (patch.stroke.Some? ==> c.stroke == patch.stroke) && (patch.stroke.None? ==> c.stroke == st.currentStyle.stroke) &&
      (patch.fill.Some? ==> c.fill == patch.fill) && (patch.fill.None? ==> c.fill == st.currentStyle.fill) &&
      (patch.strokeWidth.Some? ==> c.strokeWidth == patch.strokeWidth) &&
      (patch.strokeWidth.None? ==> c.strokeWidth == st.currentStyle.strokeWidth)
    ensures var c := SetCurrentStyle(st, patch).currentStyle;
      (patch.opacity.Some? ==> c.opacity == patch.opacity) && (patch.opacity.None? ==> c.opacity == st.currentStyle.opacity) &&
      (patch.strokeStyle.Some? ==> c.strokeStyle == patch.strokeStyle) &&
      (patch.strokeStyle.None? ==> c.strokeStyle == st.currentStyle.strokeStyle) &&
      (patch.sloppiness.Some? ==> c.sloppiness == patch.sloppiness) &&
      (patch.sloppiness.None? ==> c.sloppiness == st.currentStyle.sloppiness)
    ensures var c := SetCurrentStyle(st, patch).currentStyle;
      (patch.edgeStyle.Some? ==> c.edgeStyle == patch.edgeStyle) &&
      (patch.edgeStyle.None? ==> c.edgeStyle == st.currentStyle.edgeStyle) &&
      (patch.rotation.Some? ==> c.rotation == patch.rotation) && (patch.rotation.None? ==> c.rotation == st.currentStyle.rotation)
    ensures SetCurrentStyle(SetCurrentStyle(st, patch), patch) == SetCurrentStyle(st, patch)
    ensures SetCurrentStyle(st, patch).shapes == st.shapes && SetCurrentStyle(st, patch).selected == st.selected
    ensures SetCurrentStyle(st, st.currentStyle) == st
  {
  }

  lemma SetToolLockedRule(st: State, locked: bool)
    ensures SetToolLocked(st, locked).isToolLocked == locked
    ensures locked ==> SetToolLocked(st, locked).currentTool == SelectTool && SetToolLocked(st, locked).selected == []
    ensures !locked ==> SetToolLocked(st, locked) == st.(isToolLocked := false)
    ensures ToggleToolLocked(st) == SetToolLocked(st, !st.isToolLocked)
  {
  }

  lemma CursorUpdateRemove(st: State, userId: Id, username: string, x: real, y: real, now: int)
    ensures var c := UpdateCursor(st, userId, username, x, y, now).cursors;
      userId in c && c[userId].username == username && c[userId].x == x && c[userId].y == y && c[userId].lastSeen == now
    ensures RemoveCursor(UpdateCursor(st, userId, username, x, y, now), userId).cursors == st.cursors - {userId}
    ensures userId !in RemoveCursor(st, userId).cursors
    ensures forall k :: k in st.cursors && k != userId ==> k in RemoveCursor(st, userId).cursors
  {
  }

  /** Storage is read only outside a room, and only its well-formed entries are kept, in order. */
  lemma LoadKeepsWellFormed(st: State, loaded: Option<seq<Stored>>)
    ensures st.roomId.Some? ==> LoadShapesFromStorage(st, loaded) == st
    ensures var r := LoadShapesFromStorage(st, loaded);
      r != st ==> loaded.Some? && r.shapes == WellFormedShapes(loaded.value) && r.shapes != [] &&
                  r.past == [] && r.future == []
    ensures loaded.Some? && st.roomId.None? && WellFormedShapes(loaded.value) != [] ==>
      LoadShapesFromStorage(st, loaded).shapes == WellFormedShapes(loaded.value)
  {
    if loaded.Some? && loaded.value == [] {
      assert WellFormedShapes(loaded.value) == [];
    }
  }

  /** Only `room_joined` touches the history; no inbound message but `room_joined` emits anything. */
  lemma InboundKeepsHistory(st: State, joinedRoom: Id, msg: ServerMessage, selfId: Option<Id>, now: int)
    requires !msg.RoomJoined?
    ensures Receive(st, joinedRoom, msg, selfId, now).state.past == st.past
    ensures Receive(st, joinedRoom, msg, selfId, now).state.future == st.future
    ensures Receive(st, joinedRoom, msg, selfId, now).outbox == []
    ensures Receive(st, joinedRoom, msg, selfId, now).state.roomId == st.roomId
  {
  }

  /** A message for another room changes nothing. */
  lemma OtherRoomIgnored(st: State, joinedRoom: Id, msg: ServerMessage, selfId: Option<Id>, now: int)
    requires !msg.Error? && !msg.RoomJoined? && st.roomId != Some(msg.roomId)
    ensures Receive(st, joinedRoom, msg, selfId, now) == Step(st, [])
  {
  }

  /** `shape_added` appends exactly when no shape has the id, and then at the end. */
  lemma ShapeAddedAppendsIfAbsent(st: State, joinedRoom: Id, room: Id, shape: Shape, selfId: Option<Id>, now: int)
    requires st.roomId == Some(room)
    ensures var r := Receive(st, joinedRoom, ShapeAdded(room, shape), selfId, now).state.shapes;
      (Scene.HasId(st.shapes, shape.id) ==> r == st.shapes) &&
      (!Scene.HasId(st.shapes, shape.id) ==> r == st.shapes + [shape])
  {
  }

  lemma MapConstIdempotent(shapes: seq<Shape>, shape: Shape)
    ensures var f := (s: Shape) => shape;
      Scene.MapId(Scene.MapId(shapes, shape.id, f), shape.id, f) == Scene.MapId(shapes, shape.id, f)
  {
    var f := (s: Shape) => shape;
    var once := Scene.MapId(shapes, shape.id, f);
    var twice := Scene.MapId(once, shape.id, f);
    forall i | 0 <= i < |shapes|
      ensures twice[i] == once[i]
    {
      if shapes[i].id == shape.id {
        assert once[i] == shape;
      }
    }
  }

  lemma WithoutIdIdempotent(shapes: seq<Shape>, id: Id)
    ensures Scene.WithoutId(Scene.WithoutId(shapes, id), id) == Scene.WithoutId(shapes, id)
  {
  }

  lemma DropIdIdempotent(ids: seq<Id>, id: Id)
    ensures Scene.DropId(Scene.DropId(ids, id), id) == Scene.DropId(ids, id)
  {
  }

  /**
   * Shape events are idempotent: receiving the same `shape_added`,
   * `shape_updated`, `shape_removed` or `shapes_synced` twice (as the
   * sender does, its own events being echoed back) is the same as once.
   */
  lemma InboundIdempotent(st: State, joinedRoom: Id, msg: ServerMessage, selfId: Option<Id>, now: int)
    requires msg.ShapeAdded? || msg.ShapeUpdated? || msg.ShapeRemoved? || msg.ShapesSynced?
    ensures var once := Receive(st, joinedRoom, msg, selfId, now).state;
      Receive(once, joinedRoom, msg, selfId, now).state == once
  {
    var once := Receive(st, joinedRoom, msg, selfId, now).state;
    if st.roomId == Some(msg.roomId) {
      match msg
      case ShapeAdded(_, shape) =>
        if !Scene.HasId(st.shapes, shape.id) {
          assert once.shapes[|st.shapes|] == shape;
          assert Scene.HasId(once.shapes, shape.id);
        }
      case ShapeUpdated(_, shape) =>
        MapConstIdempotent(st.shapes, shape);
      case ShapeRemoved(_, id) =>
        WithoutIdIdempotent(st.shapes, id);
        DropIdIdempotent(st.selected, id);
      case ShapesSynced(_, _) =>
    }
  }

  /**
   * Joining seeds the scene: a non-empty room list replaces the local
   * shapes; an empty room with local shapes keeps them and pushes one
   * `shapes_sync` of them; every branch empties the history.
   */
  lemma RoomJoinedSeeding(st: State, room: Id, shapes: seq<Shape>, selfId: Option<Id>, now: int)
    ensures var r := Receive(st, room, RoomJoined(room, shapes), selfId, now);
      r.state.past == [] && r.state.future == [] && r.state.selected == st.selected &&
      (shapes != [] ==> r.state.shapes == shapes && r.outbox == []) &&
      (shapes == [] && st.shapes != [] ==> r.state.shapes == st.shapes && r.outbox == [Send(ShapesSync(room, st.shapes))]) &&
      (shapes == [] && st.shapes == [] ==> r.state.shapes == [] && r.outbox == [])
  {
  }

  /** This tab's own cursor, echoed back by the relay, is not drawn. */
  lemma OwnCursorIgnored(st: State, joinedRoom: Id, room: Id, userId: Id, selfId: Id, username: string, x: real, y: real, now: int)
    requires selfId != ""
    ensures Receive(st, joinedRoom, CursorMoved(room, userId, selfId, username, x, y), Some(selfId), now) == Step(st, [])
  {
  }

  /** Another client's cursor is stored under its client id (its user id when it sent none), stamped `now`. */
  lemma OtherCursorStored(st: State, joinedRoom: Id, room: Id, userId: Id, clientId: Id, username: string,
                          x: real, y: real, selfId: Option<Id>, now: int)
    requires st.roomId == Some(room)
    requires selfId.None? || selfId.value == "" || clientId != selfId.value
    ensures var c := Receive(st, joinedRoom, CursorMoved(room, userId, clientId, username, x, y), selfId, now).state.cursors;
      CursorKey(clientId, userId) in c && c[CursorKey(clientId, userId)] == Cursor(CursorKey(clientId, userId), userId, username, x, y, now) &&
      forall k :: k in st.cursors && k != CursorKey(clientId, userId) ==> k in c && c[k] == st.cursors[k]
  {
  }

  /**
   * The store's own `user_left` deletes the entry keyed by the relay's user
   * id, but a cursor is keyed by the client id the sender supplied: after
   * `cursor_moved` from user "u1" with client id "c1", `user_left` for
   * "u1" leaves cursor "c1" in place (until the stale-cursor sweep), where
   * the corrected reducer removes it.
   */
  lemma UserLeftAsWrittenKeepsCursor(st: State, room: Id, now: int)
    requires st.roomId == Some(room)
    ensures var moved := Receive(st, room, CursorMoved(room, "u1", "c1", "ann", 1.0, 2.0), None, now).state;
      var left := Receive(moved, room, UserLeft(room, "u1"), None, now).state;
      "c1" in left.cursors && left.cursors["c1"].ownerId == "u1" &&
      "c1" !in UserLeftCorrected(moved, room, "u1").cursors
  {
    assert CursorKey("c1", "u1") == "c1";
    assert "c1" != "u1";
  }

  /** With cursors remembering their owner, the corrected `user_left` removes every cursor of that user and no other. */
  lemma UserLeftRemovesOwnCursors(st: State, room: Id, userId: Id)
    requires st.roomId == Some(room)
    ensures var c := UserLeftCorrected(st, room, userId).cursors;
      (forall k :: k in c ==> c[k].ownerId != userId && k != userId) &&
      (forall k :: k in st.cursors && st.cursors[k].ownerId != userId && k != userId ==> k in c && c[k] == st.cursors[k])
  {
  }

  /**
   * The store's `user_left` and the corrected one differ exactly when the
   * leaving user has a cursor under a key other than its user id; the
   * store's keeps every cursor the corrected one keeps.
   */
  lemma UserLeftDeviation(st: State, joinedRoom: Id, room: Id, userId: Id, selfId: Option<Id>, now: int)
    requires st.roomId == Some(room)
    ensures var written := Receive(st, joinedRoom, UserLeft(room, userId), selfId, now).state.cursors;
      var fixed := UserLeftCorrected(st, room, userId).cursors;
      fixed.Keys <= written.Keys &&
      (written == fixed <==> forall k :: k in st.cursors && k != userId ==> st.cursors[k].ownerId != userId)
  {
    var written := Receive(st, joinedRoom, UserLeft(room, userId), selfId, now).state.cursors;
    var fixed := UserLeftCorrected(st, room, userId).cursors;
    if written == fixed {
      forall k | k in st.cursors && k != userId
        ensures st.cursors[k].ownerId != userId
      {
        assert k in written;
      }
    }
  }

  lemma DisconnectClearsCursors(st: State)
    ensures DisconnectWebSocket(st).state.cursors == map[]
    ensures DisconnectWebSocket(st).state.shapes == st.shapes
    ensures DisconnectWebSocket(st).outbox == [CloseConnection]
  {
  }
}
