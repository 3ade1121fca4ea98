/**
 * The canvas manager's state: the viewport (zoom and pan), the in-progress
 * drafts the tools paint, and the selection box computed over the selected
 * shapes' bounds.
 */
module Canvas {
  import opened Shapes
  import HitTest
  import Scene

  const MinZoom: real := 0.1
  const MaxZoom: real := 4.0
  /** The factor `zoomIn` multiplies by and `zoomOut` divides by. */
  const ZoomStep: real := 1.1

  /** Screen position `s` shows canvas point `(s - pan) / zoom`. */
  datatype Viewport = Viewport(zoom: real, panX: real, panY: real)

  datatype Segment = Segment(startPoint: Point, endPoint: Point)
  datatype CircleDraft = CircleDraft(cx: real, cy: real, r: real)
  datatype RhombusDraft = RhombusDraft(top: Point, bottom: Point, left: Point, right: Point)

  /** The seven draft fields, `null` being `None`. */
  datatype Drafts = Drafts(
    rect: Option<Box>,
    circle: Option<CircleDraft>,
    rhombus: Option<RhombusDraft>,
    pencil: Option<seq<Point>>,
    line: Option<Segment>,
    arrow: Option<Segment>,
    selectionRect: Option<Box>)

  const NoDrafts := Drafts(None, None, None, None, None, None, None)

  function ClampZoom(z: real): (r: real)
    ensures MinZoom <= r <= MaxZoom
    ensures MinZoom <= z <= MaxZoom ==> r == z
    ensures z < MinZoom ==> r == MinZoom
    ensures z > MaxZoom ==> r == MaxZoom
  {
    Min(MaxZoom, Max(MinZoom, z))
  }

  /** `toCanvasPoint` for a position already relative to the canvas element. */
  function CanvasPointAt(v: Viewport, screen: Point): (r: Point)
    requires v.zoom != 0.0
    ensures r.x * v.zoom + v.panX == screen.x && r.y * v.zoom + v.panY == screen.y
  {
    Point((screen.x - v.panX) / v.zoom, (screen.y - v.panY) / v.zoom)
  }

  /** The pan that keeps screen coordinate `c` fixed when zoom goes from `z` to `z2`. */
  function PanAbout(c: real, pan: real, z: real, z2: real): real
    requires z != 0.0
  {
    c - (z2 / z) * (c - pan)
  }

  /** `setZoom`: clamp the zoom and, given a centre, pan so the centre stays put. */
  function Zoomed(v: Viewport, newZoom: real, center: Option<Point>): (r: Viewport)
    requires center.Some? ==> v.zoom != 0.0
    ensures MinZoom <= r.zoom <= MaxZoom
    ensures center.None? ==> r.panX == v.panX && r.panY == v.panY
    ensures center.Some? ==> CanvasPointAt(r, center.value) == CanvasPointAt(v, center.value)
  {
    var z := ClampZoom(newZoom);
    match center
    case None => Viewport(z, v.panX, v.panY)
    case Some(c) =>
      var r := Viewport(z, PanAbout(c.x, v.panX, v.zoom, z), PanAbout(c.y, v.panY, v.zoom, z));
      PanAboutFixes(c.x, v.panX, v.zoom, z);
      PanAboutFixes(c.y, v.panY, v.zoom, z);
      r
  }

  lemma PanAboutFixes(c: real, pan: real, z: real, z2: real)
    requires z != 0.0 && z2 != 0.0
    ensures (c - PanAbout(c, pan, z, z2)) / z2 == (c - pan) / z
  {
    var d := c - pan;
    var s := z2 / z;
    assert c - PanAbout(c, pan, z, z2) == s * d;
    assert s * d == z2 * (d / z);
  }

  /**
   * Zooming in and then out about the same centre restores the viewport,
   * as long as neither step hit a zoom limit.
   */
  lemma ZoomInOutRoundTrip(v: Viewport, c: Point)
    requires MinZoom <= v.zoom && v.zoom * ZoomStep <= MaxZoom
    ensures Zoomed(Zoomed(v, v.zoom * ZoomStep, Some(c)), Zoomed(v, v.zoom * ZoomStep, Some(c)).zoom / ZoomStep, Some(c)) == v
  {
    var u := Zoomed(v, v.zoom * ZoomStep, Some(c));
    assert u.zoom == v.zoom * ZoomStep;
    var w := Zoomed(u, u.zoom / ZoomStep, Some(c));
    assert w.zoom == v.zoom;
    PanAboutInverse(c.x, v.panX, v.zoom, u.zoom);
    PanAboutInverse(c.y, v.panY, v.zoom, u.zoom);
  }

  lemma PanAboutInverse(c: real, pan: real, z: real, z2: real)
    requires z != 0.0 && z2 != 0.0
    ensures PanAbout(c, PanAbout(c, pan, z, z2), z2, z) == pan
  {
    var d := c - pan;
    var s := z2 / z;
    var t := z / z2;
    assert s * t == 1.0;
    assert c - PanAbout(c, pan, z, z2) == s * d;
    assert t * (s * d) == (t * s) * d;
  }

  // ---------------------------------------------------------------------
  // Bounds of this file's own `getShapeBounds`
  // ---------------------------------------------------------------------

  /**
   * The canvas manager's box for a shape: lines and arrows span their end
   * points only (a curved arrow's control point is not included). A pencil
   * stroke with no points has a non-finite box, `None` here.
   */
  function ShapeBounds(s: Shape): (r: Option<Box>)
    ensures r.None? <==> s.Pencil? && s.points == []
    ensures s.Line? || s.Arrow? ==> r == Some(HitTest.SegmentBox(s.startPoint, s.endPoint))
    ensures r.Some? && !s.Rect? && !s.Text? && !s.Circle? ==> r.value.w >= 0.0 && r.value.h >= 0.0
    ensures s.Line? || s.Arrow? ==> HitTest.HitRect(s.startPoint, r.value) && HitTest.HitRect(s.endPoint, r.value)
  {
    match s
    case Rect(_, x, y, w, h, _) => Some(Box(x, y, w, h))
    case Text(_, x, y, _, _, _, _, w, h, _, _) => Some(Box(x, y - h, w, h))
    case Line(_, a, b, _) =>
      Some(Box(Min(a.x, b.x), Min(a.y, b.y), Abs(a.x - b.x), Abs(a.y - b.y)))
    case Arrow(_, a, b, _, _) =>
      Some(Box(Min(a.x, b.x), Min(a.y, b.y), Abs(a.x - b.x), Abs(a.y - b.y)))
    case Circle(_, cx, cy, r, _) => Some(Box(cx - r, cy - r, r * 2.0, r * 2.0))
    case Rhombus(_, top, bottom, left, right, _) => Some(HitTest.PointsBox([top, right, bottom, left]))
    case Pencil(_, pts, _) => if pts == [] then None else Some(HitTest.PointsBox(pts))
  }

  /** The canvas box agrees with the hit test's box on every shape except an arrow. */
  lemma BoundsAgreeWithHitTest(s: Shape)
    requires !s.Arrow?
    ensures ShapeBounds(s) == HitTest.ShapeBounds(s)
  {
    match s
    case Rect(_, _, _, _, _, _) =>
    case Text(_, _, _, _, _, _, _, _, _, _, _) =>
    case Line(_, a, b, _) =>
    case Circle(_, _, _, _, _) =>
    case Rhombus(_, _, _, _, _, _) =>
    case Pencil(_, _, _) =>
  }

  /** An arrow's hit-test box also covers the control point, so it contains the canvas box. */
  lemma ArrowBoundsWithinHitTest(s: Shape)
    requires s.Arrow?
    ensures HitTest.BoxWithin(ShapeBounds(s).value, HitTest.ShapeBounds(s).value)
  {
    var hb := HitTest.ShapeBounds(s).value;
    assert HitTest.HitRect(s.startPoint, hb) && HitTest.HitRect(s.endPoint, hb);
    HitTest.SegmentWithin(s.startPoint, s.endPoint, hb);
  }

  /** Moving an arrow's control point leaves its canvas box unchanged. */
  lemma ArrowBoundsIgnoreControl(s: Shape, c: Option<Point>)
    requires s.Arrow?
    ensures ShapeBounds(s.(controlPoint := c)) == ShapeBounds(s)
  {
  }

  // ---------------------------------------------------------------------
  // Selection bounds
  // ---------------------------------------------------------------------

  /** The running min/max of `getSelectionBounds`; `Empty` is the infinities it starts from. */
  datatype Span = Empty | NotANumber | Span(minX: real, minY: real, maxX: real, maxY: real)

  /**
   * One step of the accumulation. A non-finite box (an empty stroke) makes
   * its right edge `NaN`, which `Math.max` then carries to the end.
   */
  function Extend(acc: Span, b: Option<Box>): Span {
    match (acc, b)
    case (NotANumber, _) => NotANumber
    case (_, None) => NotANumber
    case (Empty, Some(b)) => Span(b.x, b.y, b.x + b.w, b.y + b.h)
    case (Span(x0, y0, x1, y1), Some(b)) => Span(Min(x0, b.x), Min(y0, b.y), Max(x1, b.x + b.w), Max(y1, b.y + b.h))
  }

  /** The accumulated span over the shapes, taken left to right. */
  function Accumulate(ss: seq<Shape>): Span {
    if ss == [] then Empty else Extend(Accumulate(ss[..|ss| - 1]), ShapeBounds(ss[|ss| - 1]))
  }

  /** The result of `getSelectionBounds`: `null`, a box with non-finite fields, or a box. */
  datatype Extent = NoSelection | NonFinite | Bounded(box: Box)

  function ExtentOf(selected: seq<Shape>): Extent {
    if selected == [] then NoSelection
    else match Accumulate(selected)
      case Span(x0, y0, x1, y1) => Bounded(Box(x0, y0, x1 - x0, y1 - y0))
      case _ => NonFinite
  }

  predicate HasEmptyStroke(ss: seq<Shape>) {
    exists k :: 0 <= k < |ss| && ShapeBounds(ss[k]).None?
  }

  /** The accumulated span is `Empty` only for no shapes and `NaN` exactly when some stroke is empty. */
  lemma {:induction false} AccumulateKind(ss: seq<Shape>)
    ensures Accumulate(ss).Empty? <==> ss == []
    ensures Accumulate(ss).NotANumber? <==> HasEmptyStroke(ss)
  {
    if ss != [] {
      var init := ss[..|ss| - 1];
      AccumulateKind(init);
      assert HasEmptyStroke(ss) <==> HasEmptyStroke(init) || ShapeBounds(ss[|ss| - 1]).None? by {
        if HasEmptyStroke(init) {
          var k :| 0 <= k < |init| && ShapeBounds(init[k]).None?;
          assert ss[k] == init[k];
        }
        if HasEmptyStroke(ss) {
          var k :| 0 <= k < |ss| && ShapeBounds(ss[k]).None?;
          if k < |init| {
            assert init[k] == ss[k];
          }
        }
      }
    }
  }

  /** The span covers the box. */
  predicate SpanCovers(a: Span, b: Box)
    requires a.Span?
  {
    a.minX <= b.x && a.minY <= b.y && b.x + b.w <= a.maxX && b.y + b.h <= a.maxY
  }

  /** Shape `k` has a box, and that box's left, top, right or bottom edge is at `v`. */
  predicate LeftAt(ss: seq<Shape>, k: int, v: real)
    requires 0 <= k < |ss|
  {
    ShapeBounds(ss[k]).Some? && ShapeBounds(ss[k]).value.x == v
  }

  predicate TopAt(ss: seq<Shape>, k: int, v: real)
    requires 0 <= k < |ss|
  {
    ShapeBounds(ss[k]).Some? && ShapeBounds(ss[k]).value.y == v
  }

  predicate RightAt(ss: seq<Shape>, k: int, v: real)
    requires 0 <= k < |ss|
  {
    ShapeBounds(ss[k]).Some? && ShapeBounds(ss[k]).value.x + ShapeBounds(ss[k]).value.w == v
  }

  predicate BottomAt(ss: seq<Shape>, k: int, v: real)
    requires 0 <= k < |ss|
  {
    ShapeBounds(ss[k]).Some? && ShapeBounds(ss[k]).value.y + ShapeBounds(ss[k]).value.h == v
  }

  /** Every shape's box lies inside the accumulated span, and every edge of the span is some shape's edge. */
  lemma {:induction false} AccumulateContains(ss: seq<Shape>)
    requires Accumulate(ss).Span?
    ensures forall k :: 0 <= k < |ss| ==> ShapeBounds(ss[k]).Some? && SpanCovers(Accumulate(ss), ShapeBounds(ss[k]).value)
    ensures exists k :: 0 <= k < |ss| && LeftAt(ss, k, Accumulate(ss).minX)
    ensures exists k :: 0 <= k < |ss| && TopAt(ss, k, Accumulate(ss).minY)
    ensures exists k :: 0 <= k < |ss| && RightAt(ss, k, Accumulate(ss).maxX)
    ensures exists k :: 0 <= k < |ss| && BottomAt(ss, k, Accumulate(ss).maxY)
  {
    var n := |ss|;
    var init := ss[..n - 1];
    var last := ss[n - 1];
    var a := Accumulate(ss);
    assert ShapeBounds(last).Some?;
    var lb := ShapeBounds(last).value;
    if Accumulate(init).Empty? {
      AccumulateKind(init);
      assert n == 1;
      assert LeftAt(ss, 0, a.minX) && TopAt(ss, 0, a.minY) && RightAt(ss, 0, a.maxX) && BottomAt(ss, 0, a.maxY);
    } else {
      AccumulateContains(init);
      var ai := Accumulate(init);
      forall k | 0 <= k < n
        ensures ShapeBounds(ss[k]).Some? && SpanCovers(a, ShapeBounds(ss[k]).value)
      {
        if k < n - 1 {
          assert ss[k] == init[k];
          assert SpanCovers(ai, ShapeBounds(init[k]).value);
        }
      }
      if a.minX == lb.x {
        assert LeftAt(ss, n - 1, a.minX);
      } else {
        var k :| 0 <= k < |init| && LeftAt(init, k, ai.minX);
        assert LeftAt(ss, k, a.minX);
      }
      if a.minY == lb.y {
        assert TopAt(ss, n - 1, a.minY);
      } else {
        var k :| 0 <= k < |init| && TopAt(init, k, ai.minY);
        assert TopAt(ss, k, a.minY);
      }
      if a.maxX == lb.x + lb.w {
        assert RightAt(ss, n - 1, a.maxX);
      } else {
        var k :| 0 <= k < |init| && RightAt(init, k, ai.maxX);
        assert RightAt(ss, k, a.maxX);
      }
      if a.maxY == lb.y + lb.h {
        assert BottomAt(ss, n - 1, a.maxY);
      } else {
        var k :| 0 <= k < |init| && BottomAt(init, k, ai.maxY);
        assert BottomAt(ss, k, a.maxY);
      }
    }
  }

  function Right(b: Box): real { b.x + b.w }
  function Bottom(b: Box): real { b.y + b.h }

  /** Each edge of the box is the matching edge of some shape's box. */
  predicate Tight(ss: seq<Shape>, b: Box) {
    (exists k :: 0 <= k < |ss| && LeftAt(ss, k, b.x)) &&
    (exists k :: 0 <= k < |ss| && TopAt(ss, k, b.y)) &&
    (exists k :: 0 <= k < |ss| && RightAt(ss, k, Right(b))) &&
    (exists k :: 0 <= k < |ss| && BottomAt(ss, k, Bottom(b)))
  }

  /**
   * The selection box is `null` exactly when nothing is selected, is
   * non-finite exactly when an empty stroke is selected, and otherwise is
   * the smallest box containing every selected shape's box.
   */
  lemma ExtentOfMeaning(selected: seq<Shape>)
    ensures ExtentOf(selected).NoSelection? <==> selected == []
    ensures ExtentOf(selected).NonFinite? <==> selected != [] && HasEmptyStroke(selected)
    ensures ExtentOf(selected).Bounded? ==> forall k :: 0 <= k < |selected| ==>
      ShapeBounds(selected[k]).Some? && HitTest.BoxWithin(ShapeBounds(selected[k]).value, ExtentOf(selected).box)
    ensures ExtentOf(selected).Bounded? ==> Tight(selected, ExtentOf(selected).box)
  {
    AccumulateKind(selected);
    if selected != [] && Accumulate(selected).Span? {
      AccumulateContains(selected);
      var a := Accumulate(selected);
      forall k | 0 <= k < |selected|
        ensures ShapeBounds(selected[k]).Some? && HitTest.BoxWithin(ShapeBounds(selected[k]).value, ExtentOf(selected).box)
      {
        assert SpanCovers(a, ShapeBounds(selected[k]).value);
      }
      var b := ExtentOf(selected).box;
      assert b.x == a.minX && b.y == a.minY && Right(b) == a.maxX && Bottom(b) == a.maxY;
    }
  }

  // ---------------------------------------------------------------------
  // The manager
  // ---------------------------------------------------------------------

  class CanvasManager {
    var zoom: real
    var panX: real
    var panY: real
    var draftRect: Option<Box>
    var draftCircle: Option<CircleDraft>
    var draftRhom: Option<RhombusDraft>
    var draftPencil: Option<seq<Point>>
    var draftLine: Option<Segment>
    var draftArrow: Option<Segment>
    var selectionRect: Option<Box>

    /** The zoom always lies within its limits. */
    predicate Valid()
      reads this
    {
      MinZoom <= zoom <= MaxZoom
    }

    function View(): Viewport
      reads this
    {
      Viewport(zoom, panX, panY)
    }

    function CurrentDrafts(): Drafts
      reads this
    {
      Drafts(draftRect, draftCircle, draftRhom, draftPencil, draftLine, draftArrow, selectionRect)
    }

    constructor()
      ensures Valid()
      ensures View() == Viewport(1.0, 0.0, 0.0) && CurrentDrafts() == NoDrafts
    {
      zoom, panX, panY := 1.0, 0.0, 0.0;
      draftRect, draftCircle, draftRhom, draftPencil := None, None, None, None;
      draftLine, draftArrow, selectionRect := None, None, None;
    }

    /** `toCanvasPoint`, for a position relative to the canvas element. */
    function ToCanvasPoint(screen: Point): (r: Point)
      reads this
      requires Valid()
      ensures r.x * zoom + panX == screen.x && r.y * zoom + panY == screen.y
    {
      CanvasPointAt(View(), screen)
    }

    method SetZoom(newZoom: real, center: Option<Point>)
      requires Valid()
      modifies this
      ensures Valid()
      ensures View() == Zoomed(old(View()), newZoom, center)
      ensures CurrentDrafts() == old(CurrentDrafts())
    {
      var prevZoom := zoom;
      zoom := Min(MaxZoom, Max(MinZoom, newZoom));
      if center.Some? {
        var scale := zoom / prevZoom;
        panX := center.value.x - scale * (center.value.x - panX);
        panY := center.value.y - scale * (center.value.y - panY);
      }
    }

    method ZoomIn(center: Option<Point>)
      requires Valid()
      modifies this
      ensures Valid()
      ensures View() == Zoomed(old(View()), old(zoom) * ZoomStep, center)
      ensures CurrentDrafts() == old(CurrentDrafts())
    {
      SetZoom(zoom * ZoomStep, center);
    }

    method ZoomOut(center: Option<Point>)
      requires Valid()
      modifies this
      ensures Valid()
      ensures View() == Zoomed(old(View()), old(zoom) / ZoomStep, center)
      ensures CurrentDrafts() == old(CurrentDrafts())
    {
      SetZoom(zoom / ZoomStep, center);
    }

    method ResetZoom()
      requires Valid()
      modifies this
      ensures Valid()
      ensures View() == Viewport(1.0, 0.0, 0.0)
      ensures CurrentDrafts() == old(CurrentDrafts())
    {
      SetZoom(1.0, None);
      panX := 0.0;
      panY := 0.0;
    }

    method Pan(dx: real, dy: real)
      requires Valid()
      modifies this
      ensures Valid()
      ensures View() == Viewport(old(zoom), old(panX) + dx, old(panY) + dy)
      ensures CurrentDrafts() == old(CurrentDrafts())
    {
      panX := panX + dx;
      panY := panY + dy;
    }

    method SetDraftCircle(cx: real, cy: real, r: real)
      modifies this
      ensures View() == old(View())
      ensures CurrentDrafts() == old(CurrentDrafts()).(circle := Some(CircleDraft(cx, cy, r)))
    {
      draftCircle := Some(CircleDraft(cx, cy, r));
    }

    method ClearDraftCircle()
      modifies this
      ensures View() == old(View())
      ensures CurrentDrafts() == old(CurrentDrafts()).(circle := None)
    {
      draftCircle := None;
    }

    method SetSelectionRect(rect: Option<Box>)
      modifies this
      ensures View() == old(View())
      ensures CurrentDrafts() == old(CurrentDrafts()).(selectionRect := rect)
    {
      selectionRect := rect;
    }

    method ClearSelectionRect()
      modifies this
      ensures View() == old(View())
      ensures CurrentDrafts() == old(CurrentDrafts()).(selectionRect := None)
    {
      selectionRect := None;
    }

    method StartDraftArrow(startPoint: Point)
      modifies this
      ensures View() == old(View())
      ensures CurrentDrafts() == old(CurrentDrafts()).(arrow := Some(Segment(startPoint, startPoint)))
    {
      draftArrow := Some(Segment(startPoint, startPoint));
    }

    /** Moves the draft arrow; does nothing unless one was started. */
    method SetDraftArrow(startPoint: Point, endPoint: Point)
      modifies this
      ensures View() == old(View())
      ensures old(draftArrow).None? ==> CurrentDrafts() == old(CurrentDrafts())
      ensures old(draftArrow).Some? ==>
        CurrentDrafts() == old(CurrentDrafts()).(arrow := Some(Segment(startPoint, endPoint)))
    {
      if draftArrow.None? {
        return;
      }
      draftArrow := Some(Segment(startPoint, endPoint));
    }

    method StartDraftLine(startPoint: Point)
      modifies this
      ensures View() == old(View())
      ensures CurrentDrafts() == old(CurrentDrafts()).(line := Some(Segment(startPoint, startPoint)))
    {
      draftLine := Some(Segment(startPoint, startPoint));
    }

    /** Moves the draft line; does nothing unless one was started. */
    method SetDraftLine(startPoint: Point, endPoint: Point)
      modifies this
      ensures View() == old(View())
      ensures old(draftLine).None? ==> CurrentDrafts() == old(CurrentDrafts())
      ensures old(draftLine).Some? ==>
        CurrentDrafts() == old(CurrentDrafts()).(line := Some(Segment(startPoint, endPoint)))
    {
      if draftLine.None? {
        return;
      }
      draftLine := Some(Segment(startPoint, endPoint));
    }

    method SetDraftPencil(points: seq<Point>)
      modifies this
      ensures View() == old(View())
      ensures CurrentDrafts() == old(CurrentDrafts()).(pencil := Some(points))
    {
      draftPencil := Some(points);
    }

    method SetDraftRect(x: real, y: real, w: real, h: real)
      modifies this
      ensures View() == old(View())
      ensures CurrentDrafts() == old(CurrentDrafts()).(rect := Some(Box(x, y, w, h)))
    {
      draftRect := Some(Box(x, y, w, h));
    }

    method SetDraftRhom(top: Point, bottom: Point, left: Point, right: Point)
      modifies this
      ensures View() == old(View())
      ensures CurrentDrafts() == old(CurrentDrafts()).(rhombus := Some(RhombusDraft(top, bottom, left, right)))
    {
      draftRhom := Some(RhombusDraft(top, bottom, left, right));
    }

    method ClearAllDrafts()
      modifies this
      ensures View() == old(View())
      ensures CurrentDrafts() == NoDrafts
    {
      draftLine := None;
      selectionRect := None;
      draftArrow := None;
      draftPencil := None;
      draftRect := None;
      draftRhom := None;
      draftCircle := None;
    }

    /**
     * `getSelectionBounds`: the min/max of the selected shapes' boxes, in
     * scene order; `null` when no shape is selected.
     */
    method GetSelectionBounds(shapes: seq<Shape>, selectedIds: seq<Id>) returns (r: Extent)
      ensures r == ExtentOf(Scene.SelectedShapes(shapes, selectedIds))
      ensures r.NoSelection? <==> forall k :: 0 <= k < |shapes| ==> shapes[k].id !in selectedIds
      ensures r.Bounded? ==> forall k :: 0 <= k < |shapes| && shapes[k].id in selectedIds ==>
        ShapeBounds(shapes[k]).Some? && HitTest.BoxWithin(ShapeBounds(shapes[k]).value, r.box)
    {
      r := ScanExtent(Scene.SelectedShapes(shapes, selectedIds));
      SelectionExtentMeaning(shapes, selectedIds);
    }
  }

  /**
   * The loop of `getSelectionBounds`: running minima and maxima of the
   * boxes, taken left to right.
   */
  method ScanExtent(selected: seq<Shape>) returns (r: Extent)
    ensures r == ExtentOf(selected)
  {
    if |selected| == 0 {
      return NoSelection;
    }
    var minX, minY, maxX, maxY := 0.0, 0.0, 0.0, 0.0;
    var nan := false;
    for i := 0 to |selected|
      invariant Accumulate(selected[..i]) ==
        if nan then NotANumber else if i == 0 then Empty else Span(minX, minY, maxX, maxY)
    {
      var b := ShapeBounds(selected[i]);
      AccumulateSnoc(selected, i);
      if b.None? {
        nan := true;
      } else if nan {
      } else if i == 0 {
        minX, minY := b.value.x, b.value.y;
        maxX, maxY := b.value.x + b.value.w, b.value.y + b.value.h;
      } else {
        minX := Min(minX, b.value.x);
        minY := Min(minY, b.value.y);
        maxX := Max(maxX, b.value.x + b.value.w);
        maxY := Max(maxY, b.value.y + b.value.h);
      }
    }
    assert selected[..|selected|] == selected;
    if nan {
      r := NonFinite;
    } else {
      r := Bounded(Box(minX, minY, maxX - minX, maxY - minY));
    }
  }

  lemma AccumulateSnoc(ss: seq<Shape>, i: nat)
    requires i < |ss|
    ensures Accumulate(ss[..i + 1]) == Extend(Accumulate(ss[..i]), ShapeBounds(ss[i]))
  {
    assert ss[..i + 1][..i] == ss[..i];
  }

  /** The selection box in terms of the scene and the selected ids. */
  lemma SelectionExtentMeaning(shapes: seq<Shape>, selectedIds: seq<Id>)
    ensures var e := ExtentOf(Scene.SelectedShapes(shapes, selectedIds));
      e.NoSelection? <==> forall k :: 0 <= k < |shapes| ==> shapes[k].id !in selectedIds
    ensures var e := ExtentOf(Scene.SelectedShapes(shapes, selectedIds));
      e.Bounded? ==> forall k :: 0 <= k < |shapes| && shapes[k].id in selectedIds ==>
        ShapeBounds(shapes[k]).Some? && HitTest.BoxWithin(ShapeBounds(shapes[k]).value, e.box)
  {
    var selected := Scene.SelectedShapes(shapes, selectedIds);
    ExtentOfMeaning(selected);
    if selected == [] {
      forall k | 0 <= k < |shapes|
        ensures shapes[k].id !in selectedIds
      {
        assert shapes[k] in shapes;
      }
    } else {
      var j :| 0 <= j < |selected|;
      assert selected[j] in selected;
      var e := ExtentOf(selected);
      if e.Bounded? {
        forall k | 0 <= k < |shapes| && shapes[k].id in selectedIds
          ensures ShapeBounds(shapes[k]).Some? && HitTest.BoxWithin(ShapeBounds(shapes[k]).value, e.box)
        {
          assert shapes[k] in selected;
          var i :| 0 <= i < |selected| && selected[i] == shapes[k];
        }
      }
    }
  }
}
