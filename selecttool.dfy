/**
 * The select tool's pointer state machine: a press picks the rotate knob, a
 * line or arrow endpoint handle, a box handle, a shape (to drag) or empty
 * canvas (to start a marquee); moves rotate, resize, stretch the marquee or
 * drag; the release turns a marquee into a selection and resets the
 * gesture. Every shape edit goes through the store's `updateShape`, once per
 * selected id.
 */
module Selecting {
  import opened Shapes
  import Scene
  import HitTest
  import Canvas
  import Editor
  import SceneStore
  import SelectGeometry
  import Tools

  // ---------------------------------------------------------------------
  // Editing every selected shape, one `updateShape` at a time
  // ---------------------------------------------------------------------

  /** For each id, the updater to run on it, or none to skip it. */
  type Edit = Id -> Option<Shape -> Shape>

  predicate DistinctIds(ids: seq<Id>) {
    forall i, j :: 0 <= i < j < |ids| ==> ids[i] != ids[j]
  }

  /** Each updater keeps the id of the shapes it is run on. */
  ghost predicate KeepsIds(ids: seq<Id>, edit: Edit) {
    forall i, s: Shape :: 0 <= i < |ids| && edit(ids[i]).Some? && s.id == ids[i] ==> edit(ids[i]).value(s).id == ids[i]
  }

  /** What the loop does to one shape when the ids are distinct. */
  function Edited(s: Shape, ids: seq<Id>, edit: Edit): Shape {
    if s.id in ids && edit(s.id).Some? then edit(s.id).value(s) else s
  }

  /**
   * `for (const id of ids) updateShape(id, ...)`: the store state and the
   * effects after calling `updateShape` for every id that has an updater.
   */
  function UpdateEach(st: Editor.State, ids: seq<Id>, edit: Edit): (r: Editor.Step)
    ensures |r.state.shapes| == |st.shapes| && |r.state.past| >= |st.past|
    ensures r.state.(shapes := st.shapes, past := st.past, future := st.future) == st
    ensures st.roomId.None? ==> forall e :: e in r.outbox ==> e.SaveLocal?
    ensures st.roomId.Some? ==> forall e :: e in r.outbox ==> e.Send? && e.msg.ShapeUpdate? && e.msg.roomId == st.roomId.value
    ensures |r.outbox| <= |ids|
    decreases |ids|
  {
    if ids == [] then Editor.Step(st, [])
    else
      var prev := UpdateEach(st, ids[..|ids| - 1], edit);
      var id := ids[|ids| - 1];
      match edit(id)
      case None => prev
      case Some(f) =>
        var next := Editor.UpdateShape(prev.state, id, f);
        Editor.Step(next.state, prev.outbox + next.outbox)
  }

  lemma EditedKeepsId(s: Shape, ids: seq<Id>, edit: Edit)
    requires KeepsIds(ids, edit)
    ensures Edited(s, ids, edit).id == s.id
  {
    if s.id in ids && edit(s.id).Some? {
      var i :| 0 <= i < |ids| && ids[i] == s.id;
    }
  }

  /**
   * With distinct ids and id-keeping updaters, the loop runs each selected
   * shape's updater exactly once and leaves every other shape as it was.
   */
  lemma {:induction false} UpdateEachMeaning(st: Editor.State, ids: seq<Id>, edit: Edit)
    requires DistinctIds(ids) && KeepsIds(ids, edit)
    ensures forall k :: 0 <= k < |st.shapes| ==> UpdateEach(st, ids, edit).state.shapes[k] == Edited(st.shapes[k], ids, edit)
    decreases |ids|
  {
    if ids != [] {
      var init := ids[..|ids| - 1];
      var id := ids[|ids| - 1];
      assert DistinctIds(init);
      assert KeepsIds(init, edit) by {
        forall i, s: Shape | 0 <= i < |init| && edit(init[i]).Some? && s.id == init[i]
          ensures edit(init[i]).value(s).id == init[i]
        {
          assert init[i] == ids[i];
        }
      }
      assert id !in init;
      UpdateEachMeaning(st, init, edit);
      var prev := UpdateEach(st, init, edit);
      forall k | 0 <= k < |st.shapes|
        ensures UpdateEach(st, ids, edit).state.shapes[k] == Edited(st.shapes[k], ids, edit)
      {
        var s := st.shapes[k];
        EditedKeepsId(s, init, edit);
        assert prev.state.shapes[k].id == s.id;
        assert s.id in ids <==> s.id in init || s.id == id;
        if s.id == id {
          assert prev.state.shapes[k] == s;
        }
      }
    }
  }

  /** The updater a drag runs on every selected id: move by the pointer's displacement. */
  function DragEdit(dx: real, dy: real): Edit {
    id => Some(s => SelectGeometry.Translate(s, dx, dy))
  }

  /** The updater a box-handle resize runs: scale the shape as it was at the press. */
  function ScaleEdit(initial: map<Id, Shape>, anchor: Point, sx: real, sy: real): Edit {
    id => if id in initial then var original := initial[id]; Some(s => SelectGeometry.ScaleShape(original, anchor, sx, sy)) else None
  }

  /** The updater an endpoint handle runs: move that endpoint of the shape as it was at the press. */
  function EndpointEdit(initial: map<Id, Shape>, h: SelectGeometry.Handle, p: Point): Edit {
    id => if id in initial then var original := initial[id]; Some(s => SelectGeometry.AdjustLineEndpoint(original, h, p)) else None
  }

  /** The rotation knob's updater: set the rotation field. */
  function WithRotation(s: Shape, rotation: real): (r: Shape)
    ensures r.id == s.id && RotationOf(r) == rotation
  {
    s.(style := s.style.(rotation := Some(rotation)))
  }

  function RotateTo(rotation: real): Shape -> Shape {
    s => WithRotation(s, rotation)
  }

  /** Every stored original is keyed by its own id. */
  predicate Keyed(initial: map<Id, Shape>) {
    forall id :: id in initial ==> initial[id].id == id
  }

  lemma DragKeepsIds(ids: seq<Id>, dx: real, dy: real)
    ensures KeepsIds(ids, DragEdit(dx, dy))
  {
  }

  lemma ScaleKeepsIds(ids: seq<Id>, initial: map<Id, Shape>, anchor: Point, sx: real, sy: real)
    requires Keyed(initial)
    ensures KeepsIds(ids, ScaleEdit(initial, anchor, sx, sy))
  {
  }

  lemma EndpointKeepsIds(ids: seq<Id>, initial: map<Id, Shape>, h: SelectGeometry.Handle, p: Point)
    requires Keyed(initial)
    ensures KeepsIds(ids, EndpointEdit(initial, h, p))
  {
  }

  /** A drag step moves every selected shape by (dx, dy) and no other shape. */
  lemma DragMovesSelection(st: Editor.State, ids: seq<Id>, dx: real, dy: real)
    requires DistinctIds(ids)
    ensures var r := UpdateEach(st, ids, DragEdit(dx, dy)).state;
      forall k :: 0 <= k < |st.shapes| ==>
        r.shapes[k] == if st.shapes[k].id in ids then SelectGeometry.Translate(st.shapes[k], dx, dy) else st.shapes[k]
  {
    DragKeepsIds(ids, dx, dy);
    UpdateEachMeaning(st, ids, DragEdit(dx, dy));
  }

  /** A resize replaces each selected shape that has an original by the scaled original. */
  lemma ResizeScalesOriginals(st: Editor.State, ids: seq<Id>, initial: map<Id, Shape>, anchor: Point, sx: real, sy: real)
    requires DistinctIds(ids) && Keyed(initial)
    ensures var r := UpdateEach(st, ids, ScaleEdit(initial, anchor, sx, sy)).state;
      forall k :: 0 <= k < |st.shapes| ==>
        r.shapes[k] == if st.shapes[k].id in ids && st.shapes[k].id in initial
                       then SelectGeometry.ScaleShape(initial[st.shapes[k].id], anchor, sx, sy)
                       else st.shapes[k]
  {
    ScaleKeepsIds(ids, initial, anchor, sx, sy);
    UpdateEachMeaning(st, ids, ScaleEdit(initial, anchor, sx, sy));
  }

  /** The loop itself, on the store. */
  method UpdateSelected(store: SceneStore.EditorStore, ids: seq<Id>, edit: Edit)
    modifies store
    ensures store.Model() == UpdateEach(old(store.Model()), ids, edit).state
    ensures store.outbox == old(store.outbox) + UpdateEach(old(store.Model()), ids, edit).outbox
  {
    ghost var st := store.Model();
    ghost var out := store.outbox;
    for i := 0 to |ids|
      invariant store.Model() == UpdateFirst(st, ids, edit, i).state
      invariant store.outbox == out + UpdateFirst(st, ids, edit, i).outbox
    {
      Turn(store, st, out, ids, edit, i);
    }
    UpdateFirstAll(st, ids, edit);
  }

  /** One turn of the loop: `updateShape` for the `i`-th id when the edit applies to it. */
  method Turn(store: SceneStore.EditorStore, ghost st: Editor.State, ghost out: seq<Editor.Effect>,
              ids: seq<Id>, edit: Edit, i: nat)
    requires i < |ids|
    requires store.Model() == UpdateFirst(st, ids, edit, i).state
    requires store.outbox == out + UpdateFirst(st, ids, edit, i).outbox
    modifies store
    ensures store.Model() == UpdateFirst(st, ids, edit, i + 1).state
    ensures store.outbox == out + UpdateFirst(st, ids, edit, i + 1).outbox
  {
    ghost var prev := UpdateFirst(st, ids, edit, i);
    var f := edit(ids[i]);
    if f.Some? {
      store.UpdateShape(ids[i], f.value);
      ghost var effects := Editor.UpdateShape(prev.state, ids[i], f.value).outbox;
      assert out + (prev.outbox + effects) == (out + prev.outbox) + effects;
    } else {
      assert prev.outbox + [] == prev.outbox;
    }
  }

  function EditOne(st: Editor.State, id: Id, f: Option<Shape -> Shape>): Editor.Step {
    match f
    case None => Editor.Step(st, [])
    case Some(g) => Editor.UpdateShape(st, id, g)
  }

  /** The state and effects after the first `n` turns of the loop. */
  ghost function UpdateFirst(st: Editor.State, ids: seq<Id>, edit: Edit, n: nat): Editor.Step
    requires n <= |ids|
  {
    if n == 0 then Editor.Step(st, [])
    else
      var prev := UpdateFirst(st, ids, edit, n - 1);
      var next := EditOne(prev.state, ids[n - 1], edit(ids[n - 1]));
      Editor.Step(next.state, prev.outbox + next.outbox)
  }

  lemma {:induction false} UpdateFirstAll(st: Editor.State, ids: seq<Id>, edit: Edit)
    ensures UpdateFirst(st, ids, edit, |ids|) == UpdateEach(st, ids, edit)
    decreases |ids|
  {
    if ids != [] {
      var init := ids[..|ids| - 1];
      UpdateFirstAll(st, init, edit);
      UpdateFirstPrefix(st, ids, init, edit, |init|);
      var prev := UpdateEach(st, init, edit);
      assert prev.outbox + [] == prev.outbox;
    }
  }

  /** The first `n` turns only look at the first `n` ids. */
  lemma {:induction false} UpdateFirstPrefix(st: Editor.State, ids: seq<Id>, pre: seq<Id>, edit: Edit, n: nat)
    requires n <= |pre| <= |ids| && pre == ids[..|pre|]
    ensures UpdateFirst(st, pre, edit, n) == UpdateFirst(st, ids, edit, n)
  {
    if n > 0 {
      UpdateFirstPrefix(st, ids, pre, edit, n - 1);
      assert pre[n - 1] == ids[n - 1];
    }
  }

  // ---------------------------------------------------------------------
  // Originals and the marquee
  // ---------------------------------------------------------------------

  /** `initialShapes`: for each selected id, the last shape in scene order that carries it. */
  function Originals(shapes: seq<Shape>, ids: seq<Id>): (r: map<Id, Shape>)
    ensures forall id :: id in r <==> id in ids && Scene.HasId(shapes, id)
    ensures Keyed(r)
    ensures forall id :: id in r ==> r[id] in shapes
  {
    if shapes == [] then map[]
    else
      var init := shapes[..|shapes| - 1];
      var last := shapes[|shapes| - 1];
      var m := Originals(init, ids);
      assert forall id :: Scene.HasId(shapes, id) <==> Scene.HasId(init, id) || last.id == id by {
        forall id | Scene.HasId(init, id)
          ensures Scene.HasId(shapes, id)
        {
          var i :| 0 <= i < |init| && init[i].id == id;
          assert shapes[i] == init[i];
        }
      }
      assert forall s :: s in init ==> s in shapes;
      if last.id in ids then m[last.id := last] else m
  }

  method CollectOriginals(shapes: seq<Shape>, ids: seq<Id>) returns (m: map<Id, Shape>)
    ensures m == Originals(shapes, ids)
  {
    m := map[];
    for i := 0 to |shapes|
      invariant m == Originals(shapes[..i], ids)
    {
      assert shapes[..i + 1][..i] == shapes[..i];
      if shapes[i].id in ids {
        m := m[shapes[i].id := shapes[i]];
      }
    }
    assert shapes[..|shapes|] == shapes;
  }

  /** The marquee catches a shape whose box (as the canvas computes it) meets the rectangle. */
  predicate Caught(s: Shape, rect: Box) {
    Canvas.ShapeBounds(s).Some? && SelectGeometry.Intersects(Canvas.ShapeBounds(s).value, rect)
  }

  /** The ids the marquee selects, in scene order. */
  function CaughtIds(shapes: seq<Shape>, rect: Box): (r: seq<Id>)
    ensures |r| <= |shapes|
    ensures forall id :: id in r <==> exists k :: 0 <= k < |shapes| && shapes[k].id == id && Caught(shapes[k], rect)
  {
    if shapes == [] then []
    else
      var init := shapes[..|shapes| - 1];
      var last := shapes[|shapes| - 1];
      var r := CaughtIds(init, rect);
      assert forall k :: 0 <= k < |init| ==> init[k] == shapes[k];
      if Caught(last, rect) then r + [last.id] else r
  }

  method CollectCaught(shapes: seq<Shape>, rect: Box) returns (ids: seq<Id>)
    ensures ids == CaughtIds(shapes, rect)
  {
    ids := [];
    for i := 0 to |shapes|
      invariant ids == CaughtIds(shapes[..i], rect)
    {
      assert shapes[..i + 1][..i] == shapes[..i];
      var b := Canvas.ShapeBounds(shapes[i]);
      if b.Some? && SelectGeometry.Intersects(b.value, rect) {
        ids := ids + [shapes[i].id];
      }
    }
    assert shapes[..|shapes|] == shapes;
  }

  /** Dragging a marquee over a shape's whole box selects it. */
  lemma EnclosedIsCaught(s: Shape, rect: Box)
    requires Canvas.ShapeBounds(s).Some?
    requires Canvas.ShapeBounds(s).value.w >= 0.0 && Canvas.ShapeBounds(s).value.h >= 0.0
    requires HitTest.BoxWithin(Canvas.ShapeBounds(s).value, rect)
    ensures Caught(s, rect)
  {
  }

  // ---------------------------------------------------------------------
  // The press
  // ---------------------------------------------------------------------

  function Center(b: Box): Point {
    Point(b.x + b.w / 2.0, b.y + b.h / 2.0)
  }

  /** The one selected shape, when exactly one id is selected and a shape carries it. */
  function Single(st: Editor.State): (r: Option<Shape>)
    ensures r.Some? ==> |st.selected| == 1 && r.value.id == st.selected[0] && r.value in st.shapes
  {
    if |st.selected| == 1 then Scene.FindById(st.shapes, st.selected[0]) else None
  }

  /** The store after a press has copied the single selected shape's style into the current style. */
  function Synced(st: Editor.State): Editor.State {
    match Single(st)
    case None => st
    case Some(t) => Editor.SyncStyleFromShape(st, t)
  }

  function SelectionExtent(st: Editor.State): Canvas.Extent {
    Canvas.ExtentOf(Scene.SelectedShapes(st.shapes, st.selected))
  }

  /** What a press lands on, tried in the source's order. */
  datatype Press =
    | Locked
    | RotateKnob(target: Shape, center: Point)
    | EndpointHandle(target: Shape, handle: SelectGeometry.Handle, bounds: Canvas.Extent)
    | BoxHandle(handle: SelectGeometry.Handle, box: Box)
    | OnShape(index: nat)
    | OnEmpty

  /** The selection-box handles a press may land on, tried in the source's order, before any shape. */
  function HandlePress(st: Editor.State, p: Point, m: SelectGeometry.Metrics): (r: Option<Press>)
    ensures r.Some? ==> r.value.RotateKnob? || r.value.EndpointHandle? || r.value.BoxHandle?
    ensures r.Some? && r.value.RotateKnob? ==> (Single(st) == Some(r.value.target) && SelectionExtent(st).Bounded? &&
      SelectGeometry.RotateHandleHit(p, SelectionExtent(st).box, m))
    ensures r.Some? && r.value.EndpointHandle? ==> (Single(st) == Some(r.value.target) &&
      (r.value.target.Line? || r.value.target.Arrow?) &&
      SelectGeometry.LineHandleHit(p, r.value.target, m.handleSize) == Some(r.value.handle))
    ensures r.Some? && r.value.BoxHandle? ==> (|st.selected| == 1 && SelectionExtent(st) == Canvas.Bounded(r.value.box) &&
      SelectGeometry.HandleAt(p, r.value.box, m) == Some(r.value.handle))
  {
    var bounds := SelectionExtent(st);
    var single := Single(st);
    if single.Some? && bounds.Bounded? && SelectGeometry.RotateHandleHit(p, bounds.box, m) then
      Some(RotateKnob(single.value, Center(bounds.box)))
    else if single.Some? && SelectGeometry.LineHandleHit(p, single.value, m.handleSize).Some? then
      Some(EndpointHandle(single.value, SelectGeometry.LineHandleHit(p, single.value, m.handleSize).value, bounds))
    else if |st.selected| == 1 && bounds.Bounded? && SelectGeometry.HandleAt(p, bounds.box, m).Some? then
      Some(BoxHandle(SelectGeometry.HandleAt(p, bounds.box, m).value, bounds.box))
    else None
  }

  /** What a press lands on: nothing while the tool is locked, then the handles, then the topmost shape. */
  function Classify(st: Editor.State, p: Point, m: SelectGeometry.Metrics, rotate: (Point, Point, real) -> Point): (r: Press)
    ensures r.Locked? <==> st.isToolLocked
    ensures r.OnShape? ==> (!st.isToolLocked && HandlePress(st, p, m).None? &&
      Tools.TopmostHit(st.shapes, p, rotate) == Some(r.index))
    ensures r.OnEmpty? ==> (!st.isToolLocked && HandlePress(st, p, m).None? &&
      Tools.TopmostHit(st.shapes, p, rotate).None?)
  {
    if st.isToolLocked then Locked
    else match HandlePress(st, p, m)
      case Some(press) => press
      case None =>
        match Tools.TopmostHit(st.shapes, p, rotate)
        case Some(k) => OnShape(k)
        case None => OnEmpty
  }

  /** A press on shape `s` once the style has been synced: select it unless it is already selected. */
  function SelectOnPress(st: Editor.State, s: Shape, shift: bool): Editor.State {
    if s.id in st.selected then st
    else Editor.SyncStyleFromShape(Editor.SetSelectedShapeIds(st, if shift then st.selected + [s.id] else [s.id]), s)
  }

  method SelectPressed(store: SceneStore.EditorStore, s: Shape, shift: bool)
    modifies store
    ensures store.Model() == SelectOnPress(old(store.Model()), s, shift) && store.outbox == old(store.outbox)
  {
    var selected := store.selectedShapeIds;
    if s.id in selected {
      return;
    }
    store.SetSelectedShapeIds(if shift then selected + [s.id] else [s.id]);
    store.SyncStyleFromShape(s);
  }

  /** The gesture fields of the tool, as one value. */
  datatype Gesture = Gesture(
    dragging: bool, dragStart: Point,
    isMarquee: bool, marqueeStart: Point, marqueeRect: Option<Box>,
    resizing: bool, resizeHandle: Option<SelectGeometry.Handle>, initialBounds: Canvas.Extent,
    initialShapes: map<Id, Shape>,
    rotating: bool, rotateStartAngle: real, rotateStartRotation: real, rotateCenter: Option<Point>)

  /** Which branch of `onPointerMove` runs. */
  datatype Move = Idle | Rotate | Resize | Marquee | Drag

  function MoveKind(locked: bool, g: Gesture): Move {
    if locked then Idle
    else if g.rotating && g.rotateCenter.Some? then Rotate
    else if g.resizing && g.resizeHandle.Some? && !g.initialBounds.NoSelection? then Resize
    else if g.isMarquee then Marquee
    else if g.dragging then Drag
    else Idle
  }

  predicate IsEndpointHandle(h: SelectGeometry.Handle) {
    h == SelectGeometry.LineStart || h == SelectGeometry.LineEnd || h == SelectGeometry.ArrowControl
  }

  /** A rotate step: the single selected shape gets the press-time rotation plus the angle swept since. */
  function RotateUpdate(st: Editor.State, next: real): Editor.Step {
    if |st.selected| == 1 then Editor.UpdateShape(st, st.selected[0], RotateTo(next))
    else Editor.Step(st, [])
  }

  /** The rotation a rotate step sets: the press-time rotation plus the angle swept about the centre since the press. */
  function NextRotation(g: Gesture, p: Point, angleOf: (real, real) -> real): real
    requires g.rotateCenter.Some?
  {
    var c := g.rotateCenter.value;
    g.rotateStartRotation + (angleOf(p.y - c.y, p.x - c.x) - g.rotateStartAngle)
  }

  /** A resize step: endpoint handles move one endpoint; box handles scale every original about the anchor. */
  function ResizeUpdate(st: Editor.State, g: Gesture, p: Point): Editor.Step
    requires g.resizeHandle.Some?
  {
    var h := g.resizeHandle.value;
    if IsEndpointHandle(h) then UpdateEach(st, st.selected, EndpointEdit(g.initialShapes, h, p))
    else if g.initialBounds.Bounded? then
      var b := g.initialBounds.box;
      var r := SelectGeometry.ResizedBox(b, h, p);
      UpdateEach(st, st.selected, ScaleEdit(g.initialShapes, SelectGeometry.AnchorPoint(h, b),
                                            SelectGeometry.ScaleFactor(r.w, b.w), SelectGeometry.ScaleFactor(r.h, b.h)))
    else Editor.Step(st, [])
  }

  /** The gesture after a release or a deactivation: nothing in progress (rotation aside). */
  function Released(g: Gesture): Gesture {
    g.(dragging := false, resizing := false, resizeHandle := None, initialBounds := Canvas.NoSelection,
       initialShapes := map[], isMarquee := false, marqueeRect := None)
  }

  class SelectTool {
    var dragging: bool
    var dragStart: Point
    var isMarquee: bool
    var marqueeStart: Point
    var marqueeRect: Option<Box>
    var resizing: bool
    var resizeHandle: Option<SelectGeometry.Handle>
    var initialBounds: Canvas.Extent
    var initialShapes: map<Id, Shape>
    var rotating: bool
    var rotateStartAngle: real
    var rotateStartRotation: real
    var rotateCenter: Option<Point>

    function State(): Gesture
      reads this
    {
      Gesture(dragging, dragStart, isMarquee, marqueeStart, marqueeRect, resizing, resizeHandle, initialBounds,
              initialShapes, rotating, rotateStartAngle, rotateStartRotation, rotateCenter)
    }

    /** The originals are keyed by their own ids, so resizing edits keep ids. */
    predicate Valid()
      reads this
    {
      Keyed(initialShapes)
    }

    constructor()
      ensures Valid()
      ensures !dragging && !isMarquee && marqueeRect.None? && !resizing && resizeHandle.None?
      ensures initialBounds.NoSelection? && initialShapes == map[] && !rotating && rotateCenter.None?
    {
      dragging, dragStart := false, Point(0.0, 0.0);
      isMarquee, marqueeStart, marqueeRect := false, Point(0.0, 0.0), None;
      resizing, resizeHandle, initialBounds, initialShapes := false, None, Canvas.NoSelection, map[];
      rotating, rotateStartAngle, rotateStartRotation, rotateCenter := false, 0.0, 0.0, None;
    }

    /**
     * `onPointerDown` at canvas point `p`. `angleOf(dy, dx)` stands for
     * `Math.atan2` and `rotate` for the hit test's rotation helper.
     */
    method OnPointerDown(cm: Canvas.CanvasManager, store: SceneStore.EditorStore, p: Point, shift: bool,
                         m: SelectGeometry.Metrics, rotate: (Point, Point, real) -> Point, angleOf: (real, real) -> real)
      requires Valid()
      modifies this, cm, store
      ensures Valid()
      ensures store.outbox == old(store.outbox) && cm.View() == old(cm.View())
      ensures !Classify(old(store.Model()), p, m, rotate).OnEmpty? ==> cm.CurrentDrafts() == old(cm.CurrentDrafts())
      ensures match Classify(old(store.Model()), p, m, rotate)
        case Locked =>
          State() == old(State()) && store.Model() == old(store.Model())
        case RotateKnob(t, c) =>
          State() == old(State()).(rotating := true, rotateCenter := Some(c),
            rotateStartAngle := angleOf(p.y - c.y, p.x - c.x), rotateStartRotation := RotationOf(t)) &&
          store.Model() == old(store.Model())
        case EndpointHandle(t, h, b) =>
          State() == old(State()).(resizing := true, resizeHandle := Some(h), initialBounds := b,
            initialShapes := map[t.id := t]) &&
          store.Model() == Synced(old(store.Model()))
        case BoxHandle(h, box) =>
          State() == old(State()).(resizing := true, resizeHandle := Some(h), initialBounds := Canvas.Bounded(box),
            initialShapes := Originals(old(store.shapes), old(store.selectedShapeIds))) &&
          store.Model() == Synced(old(store.Model()))
        case OnShape(k) =>
          State() == old(State()).(dragging := true, dragStart := p) &&
          store.Model() == SelectOnPress(Synced(old(store.Model())), old(store.shapes)[k], shift)
        case OnEmpty =>
          State() == old(State()).(dragging := false, isMarquee := true, marqueeStart := p,
            marqueeRect := Some(Box(p.x, p.y, 0.0, 0.0))) &&
          store.Model() == (if shift then Synced(old(store.Model())) else Editor.SetSelectedShapeIds(Synced(old(store.Model())), [])) &&
          cm.CurrentDrafts() == old(cm.CurrentDrafts()).(selectionRect := Some(Box(p.x, p.y, 0.0, 0.0)))
    {
      if store.isToolLocked {
        return;
      }
      ghost var st := store.Model();
      var consumed := PressHandles(cm, store, p, m, angleOf);
      if consumed {
        return;
      }
      assert store.shapes == st.shapes && store.selectedShapeIds == st.selected;
      PressScene(cm, store, p, shift, rotate);
    }

    /**
     * The first half of a press: the rotate knob, an endpoint handle or a box
     * handle of a single selection. On the way the single selected shape's
     * style becomes the current style.
     */
    method PressHandles(cm: Canvas.CanvasManager, store: SceneStore.EditorStore, p: Point,
                        m: SelectGeometry.Metrics, angleOf: (real, real) -> real) returns (consumed: bool)
      requires Valid()
      modifies this, store
      ensures Valid()
      ensures consumed <==> HandlePress(old(store.Model()), p, m).Some?
      ensures store.outbox == old(store.outbox)
      ensures !consumed ==> State() == old(State()) && store.Model() == Synced(old(store.Model()))
      ensures consumed ==> match HandlePress(old(store.Model()), p, m).value
        case RotateKnob(t, c) =>
          State() == old(State()).(rotating := true, rotateCenter := Some(c),
            rotateStartAngle := angleOf(p.y - c.y, p.x - c.x), rotateStartRotation := RotationOf(t)) &&
          store.Model() == old(store.Model())
        case EndpointHandle(t, h, b) =>
          State() == old(State()).(resizing := true, resizeHandle := Some(h), initialBounds := b,
            initialShapes := map[t.id := t]) &&
          store.Model() == Synced(old(store.Model()))
        case BoxHandle(h, box) =>
          State() == old(State()).(resizing := true, resizeHandle := Some(h), initialBounds := Canvas.Bounded(box),
            initialShapes := Originals(old(store.shapes), old(store.selectedShapeIds))) &&
          store.Model() == Synced(old(store.Model()))
        case _ => false
    {
      ghost var st := store.Model();
      ghost var press := HandlePress(st, p, m);
      var shapes := store.shapes;
      var selected := store.selectedShapeIds;
      var bounds := cm.GetSelectionBounds(shapes, selected);
      var single := if |selected| == 1 then Scene.FindById(shapes, selected[0]) else None;
      assert bounds == SelectionExtent(st) && single == Single(st);
      if single.Some? && bounds.Bounded? && SelectGeometry.RotateHandleHit(p, bounds.box, m) {
        BeginRotate(single.value, Center(bounds.box), p, angleOf);
        return true;
      }
      if single.Some? {
        store.SyncStyleFromShape(single.value);
      }
      // `getLineHandleHit` answers null for anything but a line or an arrow.
      var lineHandle := if single.Some? then SelectGeometry.LineHandleHit(p, single.value, m.handleSize) else None;
      if lineHandle.Some? {
        BeginResize(lineHandle.value, bounds, map[single.value.id := single.value]);
        return true;
      }
      // A box with non-finite fields compares false against every handle, so only a finite box is tried.
      if bounds.Bounded? && |selected| == 1 {
        var handle := SelectGeometry.GetHandleHit(p, bounds.box, m);
        if handle.Some? {
          var originals := CollectOriginals(shapes, selected);
          BeginResize(handle.value, bounds, originals);
          return true;
        }
      }
      return false;
    }

    /** The second half of a press: the topmost shape under the pointer, or empty canvas. */
    method PressScene(cm: Canvas.CanvasManager, store: SceneStore.EditorStore, p: Point, shift: bool,
                      rotate: (Point, Point, real) -> Point)
      requires Valid()
      modifies this, cm, store
      ensures Valid()
      ensures store.outbox == old(store.outbox) && cm.View() == old(cm.View())
      ensures match Tools.TopmostHit(old(store.shapes), p, rotate)
        case Some(k) =>
          State() == old(State()).(dragging := true, dragStart := p) &&
          store.Model() == SelectOnPress(old(store.Model()), old(store.shapes)[k], shift) &&
          cm.CurrentDrafts() == old(cm.CurrentDrafts())
        case None =>
          State() == old(State()).(dragging := false, isMarquee := true, marqueeStart := p,
            marqueeRect := Some(Box(p.x, p.y, 0.0, 0.0))) &&
          store.Model() == (if shift then old(store.Model()) else Editor.SetSelectedShapeIds(old(store.Model()), [])) &&
          cm.CurrentDrafts() == old(cm.CurrentDrafts()).(selectionRect := Some(Box(p.x, p.y, 0.0, 0.0)))
    {
      var shapes := store.shapes;
      var top := Tools.FindTopmost(shapes, p, rotate);
      if top.Some? {
        SelectPressed(store, shapes[top.value], shift);
        BeginDrag(p);
        return;
      }
      dragging := false;
      if !shift {
        store.SetSelectedShapeIds([]);
      }
      StartMarquee(cm, p);
    }

    method BeginRotate(target: Shape, c: Point, p: Point, angleOf: (real, real) -> real)
      modifies this
      ensures State() == old(State()).(rotating := true, rotateCenter := Some(c),
        rotateStartAngle := angleOf(p.y - c.y, p.x - c.x), rotateStartRotation := RotationOf(target))
    {
      rotating := true;
      rotateCenter := Some(c);
      rotateStartAngle := angleOf(p.y - c.y, p.x - c.x);
      rotateStartRotation := RotationOf(target);
    }

    method BeginResize(h: SelectGeometry.Handle, bounds: Canvas.Extent, originals: map<Id, Shape>)
      requires Keyed(originals)
      modifies this
      ensures Valid()
      ensures State() == old(State()).(resizing := true, resizeHandle := Some(h), initialBounds := bounds,
        initialShapes := originals)
    {
      resizing := true;
      resizeHandle := Some(h);
      initialBounds := bounds;
      initialShapes := originals;
    }

    method BeginDrag(p: Point)
      modifies this
      ensures State() == old(State()).(dragging := true, dragStart := p)
    {
      dragging := true;
      dragStart := p;
    }

    method StartMarquee(cm: Canvas.CanvasManager, p: Point)
      modifies this, cm
      ensures State() == old(State()).(isMarquee := true, marqueeStart := p, marqueeRect := Some(Box(p.x, p.y, 0.0, 0.0)))
      ensures cm.View() == old(cm.View())
      ensures cm.CurrentDrafts() == old(cm.CurrentDrafts()).(selectionRect := Some(Box(p.x, p.y, 0.0, 0.0)))
    {
      isMarquee := true;
      marqueeStart := p;
      marqueeRect := Some(Box(p.x, p.y, 0.0, 0.0));
      cm.SetSelectionRect(marqueeRect);
    }

    /** `onPointerMove`: rotate, else resize, else stretch the marquee, else drag. */
    method OnPointerMove(cm: Canvas.CanvasManager, store: SceneStore.EditorStore, p: Point, angleOf: (real, real) -> real)
      requires Valid()
      modifies this, cm, store
      ensures Valid()
      ensures cm.View() == old(cm.View())
      ensures match MoveKind(old(store.isToolLocked), old(State()))
        case Idle =>
          State() == old(State()) && store.Model() == old(store.Model()) && store.outbox == old(store.outbox) &&
          cm.CurrentDrafts() == old(cm.CurrentDrafts())
        case Rotate =>
          State() == old(State()) && cm.CurrentDrafts() == old(cm.CurrentDrafts()) &&
          var step := RotateUpdate(old(store.Model()), NextRotation(old(State()), p, angleOf));
          store.Model() == step.state && store.outbox == old(store.outbox) + step.outbox
        case Resize =>
          State() == old(State()) && cm.CurrentDrafts() == old(cm.CurrentDrafts()) &&
          var step := ResizeUpdate(old(store.Model()), old(State()), p);
          store.Model() == step.state && store.outbox == old(store.outbox) + step.outbox
        case Marquee =>
          State() == old(State()).(marqueeRect := Some(SelectGeometry.MarqueeRect(old(marqueeStart), p))) &&
          cm.CurrentDrafts() == old(cm.CurrentDrafts()).(selectionRect := Some(SelectGeometry.MarqueeRect(old(marqueeStart), p))) &&
          store.Model() == old(store.Model()) && store.outbox == old(store.outbox)
        case Drag =>
          var step := UpdateEach(old(store.Model()), old(store.selectedShapeIds),
                                 DragEdit(p.x - old(dragStart).x, p.y - old(dragStart).y));
          State() == old(State()).(dragStart := p) && cm.CurrentDrafts() == old(cm.CurrentDrafts()) &&
          store.Model() == step.state && store.outbox == old(store.outbox) + step.outbox
    {
      if store.isToolLocked {
        return;
      }
      if rotating && rotateCenter.Some? {
        RotateSelection(store, p, angleOf);
        return;
      }
      if resizing && resizeHandle.Some? && !initialBounds.NoSelection? {
        ResizeSelection(store, p);
        return;
      }
      if isMarquee {
        var rect := SelectGeometry.MarqueeRect(marqueeStart, p);
        marqueeRect := Some(rect);
        cm.SetSelectionRect(marqueeRect);
        return;
      }
      if !dragging {
        return;
      }
      DragSelection(store, p);
    }

    /** The rotate knob turns the single selected shape by the angle swept since the press. */
    method RotateSelection(store: SceneStore.EditorStore, p: Point, angleOf: (real, real) -> real)
      requires rotateCenter.Some?
      modifies store
      ensures var step := RotateUpdate(old(store.Model()), NextRotation(State(), p, angleOf));
        store.Model() == step.state && store.outbox == old(store.outbox) + step.outbox
    {
      var ids := store.selectedShapeIds;
      if |ids| == 1 {
        var c := rotateCenter.value;
        var angle := angleOf(p.y - c.y, p.x - c.x);
        var next := rotateStartRotation + (angle - rotateStartAngle);
        assert next == NextRotation(State(), p, angleOf);
        store.UpdateShape(ids[0], RotateTo(next));
      }
    }

    /** A drag step: move the selection by the displacement since the last step, which becomes the new start. */
    method DragSelection(store: SceneStore.EditorStore, p: Point)
      modifies this, store
      ensures State() == old(State()).(dragStart := p)
      ensures var step := UpdateEach(old(store.Model()), old(store.selectedShapeIds),
                                     DragEdit(p.x - old(dragStart).x, p.y - old(dragStart).y));
        store.Model() == step.state && store.outbox == old(store.outbox) + step.outbox
    {
      var edit := DragEdit(p.x - dragStart.x, p.y - dragStart.y);
      dragStart := p;
      UpdateSelected(store, store.selectedShapeIds, edit);
    }

    /** `resizeSelection`: endpoint handles move one endpoint, box handles scale every original about the anchor. */
    method ResizeSelection(store: SceneStore.EditorStore, p: Point)
      requires resizeHandle.Some? && !initialBounds.NoSelection?
      modifies store
      ensures var step := ResizeUpdate(old(store.Model()), State(), p);
        store.Model() == step.state && store.outbox == old(store.outbox) + step.outbox
    {
      var h := resizeHandle.value;
      if IsEndpointHandle(h) {
        UpdateSelected(store, store.selectedShapeIds, EndpointEdit(initialShapes, h, p));
        return;
      }
      if initialBounds.Bounded? {
        var anchor, sx, sy := SelectGeometry.GetResizedBounds(initialBounds.box, h, p);
        UpdateSelected(store, store.selectedShapeIds, ScaleEdit(initialShapes, anchor, sx, sy));
      }
    }

    /** `onPointerUp`: a marquee selects what it caught; then the gesture is reset and the rectangle hidden. */
    method OnPointerUp(cm: Canvas.CanvasManager, store: SceneStore.EditorStore)
      requires Valid()
      modifies this, cm, store
      ensures Valid()
      ensures cm.View() == old(cm.View()) && store.outbox == old(store.outbox)
      ensures old(store.isToolLocked) ==>
        State() == Released(old(State())) && store.Model() == old(store.Model()) &&
        cm.CurrentDrafts() == old(cm.CurrentDrafts()).(selectionRect := None)
      ensures !old(store.isToolLocked) && old(rotating) ==>
        State() == old(State()).(rotating := false, rotateCenter := None) && store.Model() == old(store.Model()) &&
        cm.CurrentDrafts() == old(cm.CurrentDrafts())
      ensures !old(store.isToolLocked) && !old(rotating) ==>
        State() == Released(old(State())) &&
        cm.CurrentDrafts() == old(cm.CurrentDrafts()).(selectionRect := None) &&
        store.Model() == if old(isMarquee) && old(marqueeRect).Some?
                         then Editor.SetSelectedShapeIds(old(store.Model()), CaughtIds(old(store.shapes), old(marqueeRect).value))
                         else old(store.Model())
    {
      if store.isToolLocked {
        Reset(cm);
        return;
      }
      if rotating {
        rotating := false;
        rotateCenter := None;
        return;
      }
      if isMarquee && marqueeRect.Some? {
        var caught := CollectCaught(store.shapes, marqueeRect.value);
        store.SetSelectedShapeIds(caught);
      }
      Reset(cm);
    }

    method Reset(cm: Canvas.CanvasManager)
      modifies this, cm
      ensures State() == Released(old(State()))
      ensures cm.View() == old(cm.View()) && cm.CurrentDrafts() == old(cm.CurrentDrafts()).(selectionRect := None)
    {
      dragging := false;
      resizing := false;
      resizeHandle := None;
      initialBounds := Canvas.NoSelection;
      initialShapes := map[];
      isMarquee := false;
      marqueeRect := None;
      cm.SetSelectionRect(None);
    }

    /** `onDeactivate`: every gesture, rotation included, is dropped. */
    method OnDeactivate(cm: Canvas.CanvasManager)
      modifies this, cm
      ensures Valid()
      ensures State() == Released(old(State())).(rotating := false, rotateCenter := None)
      ensures cm.View() == old(cm.View()) && cm.CurrentDrafts() == old(cm.CurrentDrafts()).(selectionRect := None)
    {
      rotating := false;
      rotateCenter := None;
      Reset(cm);
    }
  }

  /** The two gestures that edit shapes keep the scene's length, selection and room. */
  lemma GesturesKeepScene(st: Editor.State, ids: seq<Id>, edit: Edit)
    ensures var r := UpdateEach(st, ids, edit).state;
      |r.shapes| == |st.shapes| && r.selected == st.selected && r.roomId == st.roomId
  {
  }

  /** A release after a marquee selects exactly the shapes whose boxes meet the rectangle. */
  lemma MarqueeSelects(st: Editor.State, rect: Box, id: Id)
    ensures id in Editor.SetSelectedShapeIds(st, CaughtIds(st.shapes, rect)).selected <==>
      exists k :: 0 <= k < |st.shapes| && st.shapes[k].id == id && Caught(st.shapes[k], rect)
  {
  }

  /** A press on an unselected shape without shift makes it the whole selection. */
  lemma PressSelectsOnly(st: Editor.State, p: Point, m: SelectGeometry.Metrics, rotate: (Point, Point, real) -> Point)
    requires Classify(st, p, m, rotate).OnShape?
    requires st.shapes[Classify(st, p, m, rotate).index].id !in st.selected
    ensures var s := st.shapes[Classify(st, p, m, rotate).index];
      SelectOnPress(Synced(st), s, false).selected == [s.id] && HitTest.Hits(p, s, rotate)
  {
  }
}
