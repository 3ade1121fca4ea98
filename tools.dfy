/**
 * Three drawing tools as pointer state machines: the eraser (removes the
 * topmost shape under the pointer), the arrow (press, drag, release commits
 * one arrow) and the circle (centre at the press, radius from the drag, too
 * small a circle is dropped). The pointer position arrives already
 * converted to canvas coordinates.
 */
module Tools {
  import opened Shapes
  import Scene
  import HitTest
  import Canvas
  import Editor
  import SceneStore
  import FlowEditor
  import SelectGeometry

  // ---------------------------------------------------------------------
  // Eraser
  // ---------------------------------------------------------------------

  /** The index of the last element `hit` accepts, if any. */
  function LastMatch(shapes: seq<Shape>, hit: Shape -> bool): (r: Option<nat>)
    ensures r.Some? ==> r.value < |shapes| && hit(shapes[r.value])
    ensures r.Some? ==> forall j :: r.value < j < |shapes| ==> !hit(shapes[j])
    ensures r.None? <==> forall j :: 0 <= j < |shapes| ==> !hit(shapes[j])
  {
    if shapes == [] then None
    else if hit(shapes[|shapes| - 1]) then Some(|shapes| - 1)
    else
      var r := LastMatch(shapes[..|shapes| - 1], hit);
      assert forall j :: 0 <= j < |shapes| - 1 ==> shapes[..|shapes| - 1][j] == shapes[j];
      r
  }

  /** The element matched with no match after it is the last match. */
  lemma LastMatchAt(shapes: seq<Shape>, hit: Shape -> bool, i: nat)
    requires i < |shapes| && hit(shapes[i])
    requires forall j :: i < j < |shapes| ==> !hit(shapes[j])
    ensures LastMatch(shapes, hit) == Some(i)
  {
    var r := LastMatch(shapes, hit);
    if r.Some? && r.value < i {
      assert false;
    }
  }

  /** The topmost shape under the point: the last one in paint order that `hitTest` accepts. */
  function TopmostHit(shapes: seq<Shape>, p: Point, rotate: (Point, Point, real) -> Point): Option<nat> {
    LastMatch(shapes, Under(p, rotate))
  }

  /** `hitTest` at a fixed point, as a test on shapes. */
  function Under(p: Point, rotate: (Point, Point, real) -> Point): Shape -> bool {
    s => HitTest.Hits(p, s, rotate)
  }

  predicate UniqueIds(shapes: seq<Shape>) {
    forall i, j :: 0 <= i < j < |shapes| ==> shapes[i].id != shapes[j].id
  }

  /** Dropping an id commutes with concatenation. */
  lemma {:induction false} WithoutIdConcat(a: seq<Shape>, b: seq<Shape>, id: Id)
    ensures Scene.WithoutId(a + b, id) == Scene.WithoutId(a, id) + Scene.WithoutId(b, id)
  {
    if a == [] {
      assert a + b == b;
    } else {
      assert (a + b)[0] == a[0];
      assert (a + b)[1..] == a[1..] + b;
      WithoutIdConcat(a[1..], b, id);
    }
  }

  lemma Around(shapes: seq<Shape>, i: nat)
    requires i < |shapes|
    ensures shapes == shapes[..i] + ([shapes[i]] + shapes[i + 1..])
  {
    assert shapes[i..] == [shapes[i]] + shapes[i + 1..];
    assert shapes == shapes[..i] + shapes[i..];
  }

  /** With unique ids, removing a present id removes exactly one shape. */
  lemma RemoveOneOfUnique(shapes: seq<Shape>, i: nat)
    requires UniqueIds(shapes) && i < |shapes|
    ensures Scene.WithoutId(shapes, shapes[i].id) == shapes[..i] + shapes[i + 1..]
  {
    var id := shapes[i].id;
    var before, after := shapes[..i], shapes[i + 1..];
    Around(shapes, i);
    WithoutIdConcat(before, [shapes[i]] + after, id);
    WithoutIdConcat([shapes[i]], after, id);
    assert [shapes[i]][1..] == [];
    forall k | 0 <= k < |before|
      ensures before[k].id != id
    {
      assert before[k] == shapes[k];
    }
    forall k | 0 <= k < |after|
      ensures after[k].id != id
    {
      assert after[k] == shapes[i + 1 + k];
    }
    assert !Scene.HasId(before, id) && !Scene.HasId(after, id);
  }

  /** The scan both the eraser and the select tool run: from the top of the paint order down, first hit wins. */
  method FindTopmost(shapes: seq<Shape>, p: Point, rotate: (Point, Point, real) -> Point) returns (r: Option<nat>)
    ensures r == TopmostHit(shapes, p, rotate)
  {
    ghost var accepts := Under(p, rotate);
    var i := |shapes|;
    while i > 0
      invariant 0 <= i <= |shapes|
      invariant forall j :: i <= j < |shapes| ==> !accepts(shapes[j])
    {
      i := i - 1;
      var hit := HitTest.HitTest(p, shapes[i], rotate);
      if hit {
        LastMatchAt(shapes, accepts, i);
        return Some(i);
      }
    }
    assert LastMatch(shapes, accepts).None?;
    return None;
  }

  class EraserTool {
    var isErasing: bool

    constructor()
      ensures !isErasing
    {
      isErasing := false;
    }

    /** `eraseAtPoint`: remove the topmost shape under the point, if there is one. */
    method EraseAtPoint(store: SceneStore.EditorStore, p: Point, rotate: (Point, Point, real) -> Point)
      modifies store
      ensures match TopmostHit(old(store.shapes), p, rotate)
        case None => store.Model() == old(store.Model()) && store.outbox == old(store.outbox)
        case Some(i) =>
          store.Model() == Editor.RemoveShape(old(store.Model()), old(store.shapes)[i].id).state &&
          store.outbox == old(store.outbox) + Editor.RemoveShape(old(store.Model()), old(store.shapes)[i].id).outbox
    {
      var top := FindTopmost(store.shapes, p, rotate);
      if top.Some? {
        store.RemoveShape(store.shapes[top.value].id);
      }
    }

    method OnPointerDown(store: SceneStore.EditorStore, p: Point, rotate: (Point, Point, real) -> Point)
      modifies this, store
      ensures isErasing
      ensures match TopmostHit(old(store.shapes), p, rotate)
        case None => store.Model() == old(store.Model()) && store.outbox == old(store.outbox)
        case Some(i) =>
          store.Model() == Editor.RemoveShape(old(store.Model()), old(store.shapes)[i].id).state &&
          store.outbox == old(store.outbox) + Editor.RemoveShape(old(store.Model()), old(store.shapes)[i].id).outbox
    {
      isErasing := true;
      EraseAtPoint(store, p, rotate);
    }

    /** Moves erase only while the pointer is down. */
    method OnPointerMove(store: SceneStore.EditorStore, p: Point, rotate: (Point, Point, real) -> Point)
      modifies store
      ensures !isErasing ==> store.Model() == old(store.Model()) && store.outbox == old(store.outbox)
      ensures isErasing ==> match TopmostHit(old(store.shapes), p, rotate)
        case None => store.Model() == old(store.Model()) && store.outbox == old(store.outbox)
        case Some(i) =>
          store.Model() == Editor.RemoveShape(old(store.Model()), old(store.shapes)[i].id).state &&
          store.outbox == old(store.outbox) + Editor.RemoveShape(old(store.Model()), old(store.shapes)[i].id).outbox
    {
      if !isErasing {
        return;
      }
      EraseAtPoint(store, p, rotate);
    }

    method OnPointerUp()
      modifies this
      ensures !isErasing
    {
      isErasing := false;
    }
  }

  /** One erase removes at most one shape when ids are unique: exactly the topmost one hit. */
  lemma EraseRemovesTopmost(st: Editor.State, p: Point, rotate: (Point, Point, real) -> Point)
    requires UniqueIds(st.shapes)
    requires TopmostHit(st.shapes, p, rotate).Some?
    ensures var i := TopmostHit(st.shapes, p, rotate).value;
      Editor.RemoveShape(st, st.shapes[i].id).state.shapes == st.shapes[..i] + st.shapes[i + 1..]
  {
    RemoveOneOfUnique(st.shapes, TopmostHit(st.shapes, p, rotate).value);
  }

  // ---------------------------------------------------------------------
  // Arrow
  // ---------------------------------------------------------------------

  function Midpoint(a: Point, b: Point): Point {
    Point((a.x + b.x) / 2.0, (a.y + b.y) / 2.0)
  }

  /** The arrow committed on release: control point at the chord's midpoint, current style copied in. */
  function CommittedArrow(id: Id, start: Point, end: Point, style: Style): (r: Shape)
    ensures r.Arrow? && r.id == id && r.startPoint == start && r.endPoint == end && r.style == style
    ensures r.controlPoint == Some(Midpoint(start, end))
    ensures SelectGeometry.ArrowMidPoint(r.startPoint, r.endPoint, r.controlPoint) == Midpoint(start, end)
  {
    Arrow(id, start, end, Some(Midpoint(start, end)), style)
  }

  lemma LerpAxis(a: real, b: real, t: real, mt: real, c: real)
    requires mt == 1.0 - t && c == (a + b) / 2.0
    ensures mt * mt * a + 2.0 * mt * t * c + t * t * b == a + t * (b - a)
  {
    assert 2.0 * mt * t * c == mt * t * a + mt * t * b;
    assert mt * mt * a + mt * t * a == mt * a;
    assert mt * t * b + t * t * b == t * b;
  }

  /** A freshly drawn arrow is straight: its curve is the segment from start to end. */
  lemma CommittedArrowIsStraight(start: Point, end: Point, t: real)
    ensures HitTest.QuadraticAt(start, Midpoint(start, end), end, t) == HitTest.Lerp(start, end, t)
  {
    var c, mt := Midpoint(start, end), 1.0 - t;
    LerpAxis(start.x, end.x, t, mt, c.x);
    LerpAxis(start.y, end.y, t, mt, c.y);
    var q := HitTest.QuadraticAt(start, c, end, t);
    assert q.x == mt * mt * start.x + 2.0 * mt * t * c.x + t * t * end.x;
    assert q.y == mt * mt * start.y + 2.0 * mt * t * c.y + t * t * end.y;
  }

  class ArrowTool {
    var startPoint: Point
    var endPoint: Point
    var drawing: bool

    constructor()
      ensures startPoint == Point(0.0, 0.0) && endPoint == Point(0.0, 0.0) && !drawing
    {
      startPoint := Point(0.0, 0.0);
      endPoint := Point(0.0, 0.0);
      drawing := false;
    }

    method OnPointerDown(cm: Canvas.CanvasManager, p: Point)
      modifies this, cm
      ensures startPoint == p && endPoint == p && drawing
      ensures cm.View() == old(cm.View())
      ensures cm.CurrentDrafts() == old(cm.CurrentDrafts()).(arrow := Some(Canvas.Segment(p, p)))
    {
      startPoint := p;
      endPoint := p;
      drawing := true;
      cm.StartDraftArrow(p);
    }

    method OnPointerMove(cm: Canvas.CanvasManager, p: Point)
      modifies this, cm
      ensures startPoint == old(startPoint) && drawing == old(drawing)
      ensures endPoint == if old(drawing) then p else old(endPoint)
      ensures cm.View() == old(cm.View())
      ensures !old(drawing) ==> cm.CurrentDrafts() == old(cm.CurrentDrafts())
      ensures old(drawing) ==>
        cm.CurrentDrafts() == if old(cm.draftArrow).Some? then old(cm.CurrentDrafts()).(arrow := Some(Canvas.Segment(startPoint, p)))
                              else old(cm.CurrentDrafts())
    {
      if !drawing {
        return;
      }
      endPoint := p;
      cm.SetDraftArrow(startPoint, p);
    }

    /** Release: one arrow from the press point to the last move point, then the drafts are cleared. */
    method OnPointerUp(cm: Canvas.CanvasManager, store: SceneStore.EditorStore, id: Id)
      modifies this, cm, store
      ensures !drawing
      ensures !old(drawing) ==> store.Model() == old(store.Model()) && store.outbox == old(store.outbox)
      ensures !old(drawing) ==> cm.CurrentDrafts() == old(cm.CurrentDrafts())
      ensures old(drawing) ==>
        store.Model() == Editor.AddShape(old(store.Model()), CommittedArrow(id, startPoint, endPoint, old(store.currentStyle))).state &&
        store.outbox == old(store.outbox) + Editor.AddShape(old(store.Model()), CommittedArrow(id, startPoint, endPoint, old(store.currentStyle))).outbox &&
        cm.CurrentDrafts() == Canvas.NoDrafts
      ensures startPoint == old(startPoint) && endPoint == old(endPoint)
      ensures cm.View() == old(cm.View())
    {
      if !drawing {
        return;
      }
      drawing := false;
      store.AddShape(CommittedArrow(id, startPoint, endPoint, store.currentStyle));
      cm.ClearAllDrafts();
    }
  }

  // ---------------------------------------------------------------------
  // Circle
  // ---------------------------------------------------------------------

  const MinCommitRadius := 2.0

  /**
   * The draft radius for a drag of (dx, dy): with shift, the larger of |dx|
   * and |dy|; otherwise the Euclidean distance, passed in as `dist`.
   */
  function CircleRadius(dx: real, dy: real, shift: bool, dist: real): real {
    if shift then Max(Abs(dx), Abs(dy)) else dist
  }

  /** The drag point never lies outside the drafted circle's box; without shift it lies on the circle. */
  lemma RadiusCoversDrag(dx: real, dy: real, shift: bool, dist: real)
    requires dist >= 0.0 && dist * dist == dx * dx + dy * dy
    ensures CircleRadius(dx, dy, shift, dist) >= Abs(dx) && CircleRadius(dx, dy, shift, dist) >= Abs(dy)
    ensures !shift ==> CircleRadius(dx, dy, shift, dist) * CircleRadius(dx, dy, shift, dist) == dx * dx + dy * dy
  {
    if !shift {
      HitTest.SquareNonNeg(dy);
      HitTest.SquareNonNeg(dx);
      assert dx * dx <= dist * dist && dy * dy <= dist * dist;
      HitTest.SquareBound(dx, dist);
      HitTest.SquareBound(dy, dist);
    }
  }

  class CircleTool {
    var start: Point
    var drawing: bool

    constructor()
      ensures !drawing
    {
      start := Point(0.0, 0.0);
      drawing := false;
    }

    method OnPointerDown(cm: Canvas.CanvasManager, p: Point)
      modifies this, cm
      ensures start == p && drawing
      ensures cm.View() == old(cm.View())
      ensures cm.CurrentDrafts() == old(cm.CurrentDrafts()).(circle := Some(Canvas.CircleDraft(p.x, p.y, 0.0)))
    {
      start := p;
      drawing := true;
      cm.SetDraftCircle(start.x, start.y, 0.0);
    }

    /** `dist` is the Euclidean length of the drag (`Math.hypot`). */
    method OnPointerMove(cm: Canvas.CanvasManager, p: Point, shift: bool, dist: real)
      requires dist >= 0.0 && dist * dist == (p.x - start.x) * (p.x - start.x) + (p.y - start.y) * (p.y - start.y)
      modifies cm
      ensures cm.View() == old(cm.View())
      ensures !drawing ==> cm.CurrentDrafts() == old(cm.CurrentDrafts())
      ensures drawing ==> cm.CurrentDrafts() == old(cm.CurrentDrafts()).(circle :=
        Some(Canvas.CircleDraft(start.x, start.y, CircleRadius(p.x - start.x, p.y - start.y, shift, dist))))
    {
      if !drawing {
        return;
      }
      var dx := p.x - start.x;
      var dy := p.y - start.y;
      var r := if shift then Max(Abs(dx), Abs(dy)) else dist;
      cm.SetDraftCircle(start.x, start.y, r);
    }

    /** Release: a draft of radius at least 2 becomes one circle with its centre and radius; any draft is then cleared. */
    method OnPointerUp(cm: Canvas.CanvasManager, store: FlowEditor.FlowStore, id: Id)
      modifies this, cm, store
      ensures !drawing
      ensures cm.View() == old(cm.View())
      ensures old(drawing) ==> cm.CurrentDrafts() == old(cm.CurrentDrafts()).(circle := None)
      ensures !old(drawing) ==> cm.CurrentDrafts() == old(cm.CurrentDrafts())
      ensures old(drawing) && old(cm.draftCircle).Some? && old(cm.draftCircle).value.r >= MinCommitRadius ==>
        var d := old(cm.draftCircle).value;
        store.History() == Scene.Commit(old(store.History()), old(store.shapes) + [Circle(id, d.cx, d.cy, d.r, NoStyle)])
      ensures !(old(drawing) && old(cm.draftCircle).Some? && old(cm.draftCircle).value.r >= MinCommitRadius) ==>
        store.History() == old(store.History())
      ensures store.selectedShapeIds == old(store.selectedShapeIds) && store.currentTool == old(store.currentTool)
    {
      if !drawing {
        return;
      }
      var draft := cm.draftCircle;
      if draft.None? || draft.value.r < MinCommitRadius {
        cm.ClearDraftCircle();
        drawing := false;
        return;
      }
      store.AddShape(Circle(id, draft.value.cx, draft.value.cy, draft.value.r, NoStyle));
      cm.ClearDraftCircle();
      drawing := false;
    }
  }
}
