/**
 * The properties panel's actions on the current selection: the primary
 * shape whose style the panel shows, per-field restyling of every selected
 * shape, deletion, and duplication with a fixed offset. Each action loops
 * over the selected shapes as they were when the panel last rendered and
 * calls one store action per shape.
 */
module Panel {
  import opened Shapes
  import Scene
  import Editor
  import SceneStore
  import SelectGeometry
  import Selecting
  import Tools
  import Wire

  /** The distance a duplicate is moved right and down. */
  const DuplicateOffset := 12.0

  // ---------------------------------------------------------------------
  // The selection the panel works on
  // ---------------------------------------------------------------------

  /** The ids of a list of shapes, in order. */
  function Ids(shapes: seq<Shape>): (r: seq<Id>)
    ensures |r| == |shapes| && forall k :: 0 <= k < |shapes| ==> r[k] == shapes[k].id
  {
    seq(|shapes|, k requires 0 <= k < |shapes| => shapes[k].id)
  }

  /** The shape whose style the panel displays: the first selected shape in scene order. */
  function Primary(shapes: seq<Shape>, selected: seq<Id>): Option<Shape> {
    var sel := Scene.SelectedShapes(shapes, selected);
    if sel == [] then None else Some(sel[0])
  }

  /**
   * The primary shape is the earliest shape in the scene whose id is
   * selected, whatever the order of the selection list; there is none
   * exactly when no shape is selected.
   */
  lemma {:induction false} PrimaryIsFirstInSceneOrder(shapes: seq<Shape>, selected: seq<Id>)
    ensures Primary(shapes, selected).None? <==> forall k :: 0 <= k < |shapes| ==> shapes[k].id !in selected
    ensures Primary(shapes, selected).Some? ==>
      exists k :: 0 <= k < |shapes| && shapes[k] == Primary(shapes, selected).value && shapes[k].id in selected &&
        forall j :: 0 <= j < k ==> shapes[j].id !in selected
  {
    if shapes != [] {
      PrimaryIsFirstInSceneOrder(shapes[1..], selected);
      if shapes[0].id !in selected {
        assert Primary(shapes, selected) == Primary(shapes[1..], selected);
        if Primary(shapes, selected).None? {
          forall k | 0 <= k < |shapes|
            ensures shapes[k].id !in selected
          {
            if k > 0 {
              assert shapes[1..][k - 1] == shapes[k];
            }
          }
        } else {
          var k :| 0 <= k < |shapes[1..]| && shapes[1..][k] == Primary(shapes, selected).value &&
            shapes[1..][k].id in selected && forall j :: 0 <= j < k ==> shapes[1..][j].id !in selected;
          assert shapes[k + 1] == shapes[1..][k];
          forall j | 0 <= j < k + 1
            ensures shapes[j].id !in selected
          {
            if j > 0 {
              assert shapes[j] == shapes[1..][j - 1];
            }
          }
        }
      }
    }
  }

  /** With the scene's ids unique, the selected shapes have distinct ids. */
  lemma {:induction false} SelectedIdsDistinct(shapes: seq<Shape>, selected: seq<Id>)
    requires Tools.UniqueIds(shapes)
    ensures Selecting.DistinctIds(Ids(Scene.SelectedShapes(shapes, selected)))
  {
    if shapes != [] {
      var rest := Scene.SelectedShapes(shapes[1..], selected);
      SelectedIdsDistinct(shapes[1..], selected);
      if shapes[0].id in selected {
        forall s | s in rest
          ensures s.id != shapes[0].id
        {
          var k :| 0 <= k < |shapes[1..]| && shapes[1..][k] == s;
          assert shapes[k + 1] == s;
        }
        var ids := Ids([shapes[0]] + rest);
        forall i, j | 0 <= i < j < |ids|
          ensures ids[i] != ids[j]
        {
          assert ids[j] == Ids(rest)[j - 1] && rest[j - 1] in rest;
          if i > 0 {
            assert ids[i] == Ids(rest)[i - 1];
          }
        }
      }
    }
  }

  /** With the scene's ids unique, so are the selected shapes' ids. */
  lemma SelectedUnique(shapes: seq<Shape>, selected: seq<Id>)
    requires Tools.UniqueIds(shapes)
    ensures Tools.UniqueIds(Scene.SelectedShapes(shapes, selected))
  {
    SelectedIdsDistinct(shapes, selected);
    var sel := Scene.SelectedShapes(shapes, selected);
    forall i, j | 0 <= i < j < |sel|
      ensures sel[i].id != sel[j].id
    {
      assert Ids(sel)[i] != Ids(sel)[j];
    }
  }

  /** A shape of the scene has its id among the selected shapes' ids exactly when its id is selected. */
  lemma SelectedIdsMeaning(shapes: seq<Shape>, selected: seq<Id>, s: Shape)
    requires s in shapes
    ensures s.id in Ids(Scene.SelectedShapes(shapes, selected)) <==> s.id in selected
  {
    var sel := Scene.SelectedShapes(shapes, selected);
    if s.id in selected {
      assert s in sel;
      var k :| 0 <= k < |sel| && sel[k] == s;
      assert Ids(sel)[k] == s.id;
    } else {
      forall k | 0 <= k < |sel|
        ensures Ids(sel)[k] != s.id
      {
        assert sel[k] in sel;
      }
    }
  }

  // ---------------------------------------------------------------------
  // Restyling
  // ---------------------------------------------------------------------

  /** One control of the panel and the value picked on it. */
  datatype Pick =
    | StrokePick(color: string)
    | FillPick(color: string)
    | WidthPick(width: real)
    | StrokeStylePick(strokeStyle: StrokeStyle)
    | SloppinessPick(level: Sloppiness)
    | EdgePick(edge: EdgeStyle)
    | OpacityPick(opacity: real)

  /** A style with the picked field set and every other field kept. */
  function WithPick(st: Style, pick: Pick): Style {
    match pick
    case StrokePick(c) => st.(stroke := Some(c))
    case FillPick(c) => st.(fill := Some(c))
    case WidthPick(w) => st.(strokeWidth := Some(w))
    case StrokeStylePick(ss) => st.(strokeStyle := Some(ss))
    case SloppinessPick(l) => st.(sloppiness := Some(l))
    case EdgePick(e) => st.(edgeStyle := Some(e))
    case OpacityPick(o) => st.(opacity := Some(o))
  }

  /** The one-field patch the control hands to `setCurrentStyle`. */
  function Patch(pick: Pick): Style {
    WithPick(NoStyle, pick)
  }

  /** The updater a control runs on each selected shape; a stroke pick also recolours text. */
  function Restyle(s: Shape, pick: Pick): (r: Shape)
    ensures r.id == s.id && r.style == WithPick(s.style, pick)
    ensures r.Text? <==> s.Text?
    ensures r.Text? && pick.StrokePick? ==> r == s.(style := r.style, color := pick.color)
    ensures !(r.Text? && pick.StrokePick?) ==> r == s.(style := r.style)
  {
    var next := s.(style := WithPick(s.style, pick));
    if s.Text? && pick.StrokePick? then next.(color := pick.color) else next
  }

  function Restyler(pick: Pick): Shape -> Shape {
    s => Restyle(s, pick)
  }

  /** The same updater for every id. */
  function Always(f: Shape -> Shape): Selecting.Edit {
    id => Some(f)
  }

  /** A control's change: the current style takes the picked field, then every selected shape is updated. */
  function UpdateStyle(st: Editor.State, pick: Pick): Editor.Step {
    var ids := Ids(Scene.SelectedShapes(st.shapes, st.selected));
    Selecting.UpdateEach(Editor.SetCurrentStyle(st, Patch(pick)), ids, Always(Restyler(pick)))
  }

  /** The current style takes exactly the picked field. */
  lemma PatchSetsCurrentStyle(st: Editor.State, pick: Pick)
    ensures Editor.SetCurrentStyle(st, Patch(pick)).currentStyle == WithPick(st.currentStyle, pick)
  {
  }

  /**
   * With unique shape ids, a control's change restyles exactly the selected
   * shapes, in place, and leaves every other shape, the selection and the
   * tool state as they were; the current style takes the picked field.
   */
  lemma UpdateStyleEffect(st: Editor.State, pick: Pick)
    requires Tools.UniqueIds(st.shapes)
    ensures var r := UpdateStyle(st, pick).state;
      |r.shapes| == |st.shapes| &&
      (forall k :: 0 <= k < |st.shapes| ==>
        r.shapes[k] == if st.shapes[k].id in st.selected then Restyle(st.shapes[k], pick) else st.shapes[k]) &&
      r.currentStyle == WithPick(st.currentStyle, pick) &&
      r.selected == st.selected && r.roomId == st.roomId && r.cursors == st.cursors
  {
    var ids := Ids(Scene.SelectedShapes(st.shapes, st.selected));
    var edit := Always(Restyler(pick));
    var styled := Editor.SetCurrentStyle(st, Patch(pick));
    SelectedIdsDistinct(st.shapes, st.selected);
    Selecting.UpdateEachMeaning(styled, ids, edit);
    forall k | 0 <= k < |st.shapes|
      ensures UpdateStyle(st, pick).state.shapes[k] ==
        if st.shapes[k].id in st.selected then Restyle(st.shapes[k], pick) else st.shapes[k]
    {
      SelectedIdsMeaning(st.shapes, st.selected, st.shapes[k]);
    }
  }

  /** `applyToSelection` behind a control: patch the current style, then update the selected shapes one by one. */
  method UpdateStyleOnStore(store: SceneStore.EditorStore, pick: Pick)
    modifies store
    ensures store.Model() == UpdateStyle(old(store.Model()), pick).state
    ensures store.outbox == old(store.outbox) + UpdateStyle(old(store.Model()), pick).outbox
  {
    var ids := Ids(Scene.SelectedShapes(store.shapes, store.selectedShapeIds));
    store.SetCurrentStyle(Patch(pick));
    Selecting.UpdateSelected(store, ids, Always(Restyler(pick)));
  }

  // ---------------------------------------------------------------------
  // Deleting
  // ---------------------------------------------------------------------

  /** `for (const id of ids) removeShape(id)` */
  function RemoveEach(st: Editor.State, ids: seq<Id>): (r: Editor.Step)
    ensures |r.outbox| == |ids|
    decreases |ids|
  {
    if ids == [] then Editor.Step(st, [])
    else
      var prev := RemoveEach(st, ids[..|ids| - 1]);
      var next := Editor.RemoveShape(prev.state, ids[|ids| - 1]);
      Editor.Step(next.state, prev.outbox + next.outbox)
  }

  /** The shapes whose id is not in the list, in scene order. */
  function Kept(shapes: seq<Shape>, ids: seq<Id>): (r: seq<Shape>)
    ensures forall s :: s in r <==> s in shapes && s.id !in ids
  {
    if shapes == [] then []
    else if shapes[0].id in ids then Kept(shapes[1..], ids)
    else [shapes[0]] + Kept(shapes[1..], ids)
  }

  lemma {:induction false} KeptStep(shapes: seq<Shape>, ids: seq<Id>, id: Id)
    ensures Scene.WithoutId(Kept(shapes, ids), id) == Kept(shapes, ids + [id])
  {
    if shapes != [] {
      KeptStep(shapes[1..], ids, id);
    }
  }

  /**
   * Removing a list of ids one by one leaves the shapes with none of those
   * ids, in scene order, drops them from the selection, and records one
   * history entry per id.
   */
  lemma {:induction false} RemoveEachMeaning(st: Editor.State, ids: seq<Id>)
    ensures var r := RemoveEach(st, ids).state;
      r.shapes == Kept(st.shapes, ids) &&
      (forall o :: o in r.selected <==> o in st.selected && o !in ids) &&
      |r.past| == |st.past| + |ids| && (ids != [] ==> r.future == []) &&
      r.roomId == st.roomId && r.currentStyle == st.currentStyle
    decreases |ids|
  {
    if ids == [] {
      assert Kept(st.shapes, []) == st.shapes by {
        KeptNone(st.shapes);
      }
    } else {
      var init := ids[..|ids| - 1];
      var last := ids[|ids| - 1];
      RemoveEachMeaning(st, init);
      var prev := RemoveEach(st, init).state;
      var r := RemoveEach(st, ids).state;
      assert r == Editor.RemoveShape(prev, last).state;
      KeptStep(st.shapes, init, last);
      LastSplit(ids);
      assert r.shapes == Kept(st.shapes, ids);
      assert forall o :: o in ids <==> o in init || o == last;
    }
  }

  lemma LastSplit(ids: seq<Id>)
    requires ids != []
    ensures ids[..|ids| - 1] + [ids[|ids| - 1]] == ids
  {
  }

  lemma {:induction false} KeptNone(shapes: seq<Shape>)
    ensures Kept(shapes, []) == shapes
  {
    if shapes != [] {
      KeptNone(shapes[1..]);
    }
  }

  /** `deleteSelection` removes exactly the selected shapes and leaves no selected id naming a removed shape. */
  lemma DeleteRemovesSelected(st: Editor.State)
    ensures var sel := Scene.SelectedShapes(st.shapes, st.selected);
      var r := RemoveEach(st, Ids(sel)).state;
      (forall s :: s in r.shapes <==> s in st.shapes && s.id !in st.selected) &&
      (forall o :: o in r.selected ==> !Scene.HasId(st.shapes, o) && o in st.selected) &&
      |r.past| == |st.past| + |sel|
  {
    var sel := Scene.SelectedShapes(st.shapes, st.selected);
    RemoveEachMeaning(st, Ids(sel));
    var r := RemoveEach(st, Ids(sel)).state;
    forall s | s in st.shapes
      ensures s.id in Ids(sel) <==> s.id in st.selected
    {
      SelectedIdsMeaning(st.shapes, st.selected, s);
    }
    forall o | o in r.selected
      ensures !Scene.HasId(st.shapes, o)
    {
      if Scene.HasId(st.shapes, o) {
        var i :| 0 <= i < |st.shapes| && st.shapes[i].id == o;
        SelectedIdsMeaning(st.shapes, st.selected, st.shapes[i]);
        assert false;
      }
    }
  }

  /** The delete button: one `removeShape` per selected shape. */
  method DeleteSelection(store: SceneStore.EditorStore)
    modifies store
    ensures var ids := Ids(Scene.SelectedShapes(old(store.shapes), old(store.selectedShapeIds)));
      store.Model() == RemoveEach(old(store.Model()), ids).state &&
      store.outbox == old(store.outbox) + RemoveEach(old(store.Model()), ids).outbox
  {
    var ids := Ids(Scene.SelectedShapes(store.shapes, store.selectedShapeIds));
    RemoveAll(store, ids);
  }

  /** `removeShape` for each id in turn. */
  method RemoveAll(store: SceneStore.EditorStore, ids: seq<Id>)
    modifies store
    ensures store.Model() == RemoveEach(old(store.Model()), ids).state
    ensures store.outbox == old(store.outbox) + RemoveEach(old(store.Model()), ids).outbox
  {
    ghost var st := store.Model();
    ghost var out := store.outbox;
    for i := 0 to |ids|
      invariant store.Model() == RemoveEach(st, ids[..i]).state
      invariant store.outbox == out + RemoveEach(st, ids[..i]).outbox
    {
      RemoveEachSnoc(st, ids, i);
      store.RemoveShape(ids[i]);
    }
    assert ids[..|ids|] == ids;
  }

  /** One more removal extends `RemoveEach` by one `removeShape` step. */
  lemma RemoveEachSnoc(st: Editor.State, ids: seq<Id>, i: nat)
    requires i < |ids|
    ensures var prev := RemoveEach(st, ids[..i]);
      RemoveEach(st, ids[..i + 1]) ==
      Editor.Step(Editor.RemoveShape(prev.state, ids[i]).state, prev.outbox + Editor.RemoveShape(prev.state, ids[i]).outbox)
  {
    assert ids[..i + 1][..i] == ids[..i];
  }

  // ---------------------------------------------------------------------
  // Duplicating
  // ---------------------------------------------------------------------

  function Shift(p: Point): Point {
    SelectGeometry.TranslatePoint(p, DuplicateOffset, DuplicateOffset)
  }

  /**
   * The copy the duplicate button adds for one shape: the new id, and the
   * position fields moved by the offset. For lines and arrows only the two
   * end points move; an arrow's control point is copied as it is.
   */
  function Duplicate(s: Shape, id: Id): (r: Shape)
    ensures r.id == id
  {
    match s
    case Rect(_, x, y, w, h, st) => Rect(id, x + DuplicateOffset, y + DuplicateOffset, w, h, st)
    case Circle(_, cx, cy, r, st) => Circle(id, cx + DuplicateOffset, cy + DuplicateOffset, r, st)
    case Rhombus(_, top, bottom, left, right, st) => Rhombus(id, Shift(top), Shift(bottom), Shift(left), Shift(right), st)
    case Pencil(_, pts, st) => Pencil(id, SelectGeometry.TranslatePoints(pts, DuplicateOffset, DuplicateOffset), st)
    case Line(_, a, b, st) => Line(id, Shift(a), Shift(b), st)
    case Arrow(_, a, b, cp, st) => Arrow(id, Shift(a), Shift(b), cp, st)
    case Text(_, x, y, txt, fs, ff, col, w, h, lay, st) =>
      Text(id, x + DuplicateOffset, y + DuplicateOffset, txt, fs, ff, col, w, h, lay, st)
  }

  /**
   * A duplicate is the shape translated by (12, 12) under the new id, except
   * that a curved arrow keeps its original control point.
   */
  lemma DuplicateIsShiftedCopy(s: Shape, id: Id)
    ensures !(s.Arrow? && s.controlPoint.Some?) ==>
      Duplicate(s, id) == SelectGeometry.Translate(s, DuplicateOffset, DuplicateOffset).(id := id)
    ensures s.Arrow? ==> (Duplicate(s, id).Arrow? && Duplicate(s, id).controlPoint == s.controlPoint &&
      Duplicate(s, id).startPoint == Shift(s.startPoint) && Duplicate(s, id).endPoint == Shift(s.endPoint) &&
      Duplicate(s, id).style == s.style)
  {
  }

  /** The copies of a list of shapes under a list of new ids. */
  function Duplicates(sel: seq<Shape>, newIds: seq<Id>): (r: seq<Shape>)
    requires |newIds| == |sel|
    ensures |r| == |sel| && forall k :: 0 <= k < |sel| ==> r[k] == Duplicate(sel[k], newIds[k])
  {
    seq(|sel|, k requires 0 <= k < |sel| => Duplicate(sel[k], newIds[k]))
  }

  /** `for (const shape of selectedShapes) addShape(copy)`, one newIds id per shape. */
  function DuplicateEach(st: Editor.State, sel: seq<Shape>, newIds: seq<Id>): Editor.Step
    requires |newIds| == |sel|
    decreases |sel|
  {
    if sel == [] then Editor.Step(st, [])
    else
      var prev := DuplicateEach(st, sel[..|sel| - 1], newIds[..|newIds| - 1]);
      var next := Editor.AddShape(prev.state, Duplicate(sel[|sel| - 1], newIds[|newIds| - 1]));
      Editor.Step(next.state, prev.outbox + next.outbox)
  }

  /**
   * Duplicating appends one copy per shape after the existing shapes, in
   * order, records one history entry per copy, keeps the selection, and
   * either saves locally or announces each copy to the room.
   */
  lemma {:induction false} DuplicateEachAppends(st: Editor.State, sel: seq<Shape>, newIds: seq<Id>)
    requires |newIds| == |sel|
    ensures var r := DuplicateEach(st, sel, newIds);
      r.state.shapes == st.shapes + Duplicates(sel, newIds) &&
      |r.state.past| == |st.past| + |sel| && (sel != [] ==> r.state.future == []) &&
      r.state.selected == st.selected && r.state.roomId == st.roomId &&
      |r.outbox| == |sel| &&
      (st.roomId.Some? ==> forall k :: 0 <= k < |sel| ==>
        r.outbox[k] == Editor.Send(Wire.ShapeAdd(st.roomId.value, Duplicate(sel[k], newIds[k])))) &&
      (st.roomId.None? ==> forall k :: 0 <= k < |sel| ==> r.outbox[k].SaveLocal?)
    decreases |sel|
  {
    if sel != [] {
      var n := |sel| - 1;
      DuplicateEachAppends(st, sel[..n], newIds[..n]);
      assert Duplicates(sel, newIds) == Duplicates(sel[..n], newIds[..n]) + [Duplicate(sel[n], newIds[n])];
    }
  }

  /** The duplicate button; `newIds` supplies the id `crypto.randomUUID()` gives each copy. */
  method DuplicateSelection(store: SceneStore.EditorStore, newIds: seq<Id>)
    requires |newIds| == |Scene.SelectedShapes(store.shapes, store.selectedShapeIds)|
    modifies store
    ensures var sel := Scene.SelectedShapes(old(store.shapes), old(store.selectedShapeIds));
      store.Model() == DuplicateEach(old(store.Model()), sel, newIds).state &&
      store.outbox == old(store.outbox) + DuplicateEach(old(store.Model()), sel, newIds).outbox
  {
    var sel := Scene.SelectedShapes(store.shapes, store.selectedShapeIds);
    ghost var st := store.Model();
    ghost var out := store.outbox;
    for i := 0 to |sel|
      invariant store.Model() == DuplicateEach(st, sel[..i], newIds[..i]).state
      invariant store.outbox == out + DuplicateEach(st, sel[..i], newIds[..i]).outbox
    {
      assert sel[..i + 1][..i] == sel[..i] && newIds[..i + 1][..i] == newIds[..i];
      store.AddShape(Duplicate(sel[i], newIds[i]));
    }
    assert sel[..|sel|] == sel && newIds[..|sel|] == newIds;
  }
}
