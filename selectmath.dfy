/**
 * The geometry behind the select tool: box overlap for the marquee, the
 * eight resize handles, resizing with a minimum size about the opposite
 * anchor, scaling and translating shapes, and the arrow's draggable
 * mid-point handle.
 */
module SelectGeometry {
  import opened Shapes
  import HitTest

  /** Smallest width and height a resize may produce. */
  const MinSize: real := 12.0

  /** The selection-box handles and the endpoint handles of lines and arrows. */
  datatype Handle = NW | N | NE | E | SE | S | SW | W | LineStart | LineEnd | ArrowControl

  /** Sizes taken from the canvas constants. */
  datatype Metrics = Metrics(padding: real, handleSize: real, rotateOffset: real, rotateRadius: real)

  // ---------------------------------------------------------------------
  // Marquee
  // ---------------------------------------------------------------------

  /** `intersects`: neither box lies strictly beyond the other on either axis. */
  predicate Intersects(a: Box, b: Box) {
    !(a.x > b.x + b.w || a.x + a.w < b.x || a.y > b.y + b.h || a.y + a.h < b.y)
  }

  lemma IntersectsSymmetric(a: Box, b: Box)
    ensures Intersects(a, b) == Intersects(b, a)
  {
  }

  /**
   * For boxes of non-negative size, overlap (touching edges included) means
   * exactly that some point lies in both closed boxes.
   */
  lemma IntersectsIffCommonPoint(a: Box, b: Box)
    requires a.w >= 0.0 && a.h >= 0.0 && b.w >= 0.0 && b.h >= 0.0
    ensures Intersects(a, b) <==> exists q :: HitTest.HitRect(q, a) && HitTest.HitRect(q, b)
  {
    if Intersects(a, b) {
      var q := Point(Max(a.x, b.x), Max(a.y, b.y));
      assert HitTest.HitRect(q, a) && HitTest.HitRect(q, b);
    }
  }

  /** Boxes that only share an edge still intersect. */
  lemma TouchingBoxesIntersect()
    ensures Intersects(Box(0.0, 0.0, 10.0, 10.0), Box(10.0, 0.0, 5.0, 5.0))
    ensures !Intersects(Box(0.0, 0.0, 10.0, 10.0), Box(10.5, 0.0, 5.0, 5.0))
  {
  }

  /** The marquee rectangle spanned by the press point and the pointer. */
  function MarqueeRect(start: Point, p: Point): (r: Box)
    ensures r.w >= 0.0 && r.h >= 0.0
    ensures HitTest.HitRect(start, r) && HitTest.HitRect(p, r)
    ensures (r.x == start.x || r.x == p.x) && (r.x + r.w == start.x || r.x + r.w == p.x)
    ensures (r.y == start.y || r.y == p.y) && (r.y + r.h == start.y || r.y + r.h == p.y)
  {
    Box(Min(start.x, p.x), Min(start.y, p.y), Abs(p.x - start.x), Abs(p.y - start.y))
  }

  // ---------------------------------------------------------------------
  // Handles
  // ---------------------------------------------------------------------

  /** The selection box grown by the padding on every side. */
  function PaddedBox(b: Box, padding: real): Box {
    Box(b.x - padding, b.y - padding, b.w + padding * 2.0, b.h + padding * 2.0)
  }

  /** The eight box handles in the order they are tried, with their centres. */
  function HandlePositions(box: Box): (r: seq<(Handle, Point)>)
    ensures |r| == 8
  {
    [(NW, Point(box.x, box.y)),
     (N, Point(box.x + box.w / 2.0, box.y)),
     (NE, Point(box.x + box.w, box.y)),
     (E, Point(box.x + box.w, box.y + box.h / 2.0)),
     (SE, Point(box.x + box.w, box.y + box.h)),
     (S, Point(box.x + box.w / 2.0, box.y + box.h)),
     (SW, Point(box.x, box.y + box.h)),
     (W, Point(box.x, box.y + box.h / 2.0))]
  }

  /** The point lies in the square of half-side `half` centred at `c`. */
  predicate InSquare(p: Point, c: Point, half: real) {
    p.x >= c.x - half && p.x <= c.x + half && p.y >= c.y - half && p.y <= c.y + half
  }

  /** The first handle, in list order, whose square holds the point; None when no square holds it. */
  function FirstInSquare(hs: seq<(Handle, Point)>, p: Point, half: real): (r: Option<Handle>)
    ensures r.None? <==> forall k :: 0 <= k < |hs| ==> !InSquare(p, hs[k].1, half)
  {
    if hs == [] then None
    else if InSquare(p, hs[0].1, half) then Some(hs[0].0)
    else
      assert forall k :: 0 <= k < |hs| - 1 ==> hs[1..][k] == hs[k + 1];
      FirstInSquare(hs[1..], p, half)
  }

  /** A reported handle is the first one, in list order, whose square holds the point. */
  lemma {:induction false} FirstInSquareIsFirst(hs: seq<(Handle, Point)>, p: Point, half: real)
    requires FirstInSquare(hs, p, half).Some?
    ensures exists k :: 0 <= k < |hs| && hs[k].0 == FirstInSquare(hs, p, half).value && InSquare(p, hs[k].1, half) &&
                        forall j :: 0 <= j < k ==> !InSquare(p, hs[j].1, half)
  {
    if !InSquare(p, hs[0].1, half) {
      var tail := hs[1..];
      FirstInSquareIsFirst(tail, p, half);
      var k :| 0 <= k < |tail| && tail[k].0 == FirstInSquare(tail, p, half).value && InSquare(p, tail[k].1, half) &&
               forall j :: 0 <= j < k ==> !InSquare(p, tail[j].1, half);
      forall j | 1 <= j < k + 1
        ensures !InSquare(p, hs[j].1, half)
      {
        assert hs[j] == tail[j - 1];
      }
      assert hs[k + 1] == tail[k];
    }
  }

  /** The handle `getHandleHit` reports for this point and selection box. */
  function HandleAt(p: Point, bounds: Box, m: Metrics): Option<Handle> {
    FirstInSquare(HandlePositions(PaddedBox(bounds, m.padding)), p, m.handleSize / 2.0)
  }

  /** `getHandleHit`: the first handle (in the fixed order) whose square holds the point. */
  method GetHandleHit(p: Point, bounds: Box, m: Metrics) returns (r: Option<Handle>)
    ensures r == HandleAt(p, bounds, m)
  {
    r := ScanHandles(HandlePositions(PaddedBox(bounds, m.padding)), p, m.handleSize / 2.0);
  }

  /** The scan over the handle list, first match wins. */
  method ScanHandles(handles: seq<(Handle, Point)>, p: Point, half: real) returns (r: Option<Handle>)
    ensures r == FirstInSquare(handles, p, half)
  {
    var i := 0;
    while i < |handles|
      invariant 0 <= i <= |handles|
      invariant FirstInSquare(handles[i..], p, half) == FirstInSquare(handles, p, half)
    {
      if InSquare(p, handles[i].1, half) {
        return Some(handles[i].0);
      }
      assert handles[i..][1..] == handles[i + 1..];
      i := i + 1;
    }
    return None;
  }

  /** `getRotateHandleHit`: within the radius of the knob above the box's top centre (squared). */
  predicate RotateHandleHit(p: Point, bounds: Box, m: Metrics) {
    var dx := p.x - (bounds.x + bounds.w / 2.0);
    var dy := p.y - (bounds.y - m.padding - m.rotateOffset);
    m.rotateRadius >= 0.0 && dx * dx + dy * dy <= m.rotateRadius * m.rotateRadius
  }

  /** Squared distance within `radius`. */
  predicate WithinRadius(p: Point, q: Point, radius: real) {
    radius >= 0.0 && HitTest.DistSq(p, q) <= radius * radius
  }

  /** `getArrowMidPoint`: the curve point at t = 1/2, the chord midpoint standing in for a missing control. */
  function ArrowMidPoint(start: Point, end: Point, control: Option<Point>): (m: Point)
    ensures control.None? ==> m == Point((start.x + end.x) / 2.0, (start.y + end.y) / 2.0)
  {
    var c := control.GetOr(Point((start.x + end.x) / 2.0, (start.y + end.y) / 2.0));
    var t := 0.5;
    var mt := 1.0 - t;
    Point(mt * mt * start.x + 2.0 * mt * t * c.x + t * t * end.x,
          mt * mt * start.y + 2.0 * mt * t * c.y + t * t * end.y)
  }

  /** `controlPointForMidPoint`: the control point whose curve passes through `mid` at t = 1/2. */
  function ControlPointForMidPoint(start: Point, mid: Point, end: Point): Point {
    Point(2.0 * mid.x - 0.5 * (start.x + end.x), 2.0 * mid.y - 0.5 * (start.y + end.y))
  }

  /** The mid-point handle round trip, in both directions. */
  lemma MidPointRoundTrip(start: Point, mid: Point, end: Point, control: Point)
    ensures ArrowMidPoint(start, end, Some(ControlPointForMidPoint(start, mid, end))) == mid
    ensures ControlPointForMidPoint(start, ArrowMidPoint(start, end, Some(control)), end) == control
  {
  }

  /** The curve's mid point is the same point the hit test samples at t = 1/2. */
  lemma MidPointOnCurve(start: Point, end: Point, control: Point)
    ensures ArrowMidPoint(start, end, Some(control)) == HitTest.QuadraticAt(start, control, end, 0.5)
  {
  }

  /** `getLineHandleHit`: start first, then (arrows only) the mid point, then the end. */
  function LineHandleHit(p: Point, s: Shape, handleSize: real): (r: Option<Handle>)
    ensures r.Some? ==> s.Line? || s.Arrow?
    ensures r == Some(ArrowControl) ==> s.Arrow?
    ensures r == Some(LineStart) <==> (s.Line? || s.Arrow?) && WithinRadius(p, s.startPoint, handleSize / 2.0)
  {
    if !s.Line? && !s.Arrow? then None
    else
      var radius := handleSize / 2.0;
      if WithinRadius(p, s.startPoint, radius) then Some(LineStart)
      else if s.Arrow? && WithinRadius(p, ArrowMidPoint(s.startPoint, s.endPoint, s.controlPoint), radius) then Some(ArrowControl)
      else if WithinRadius(p, s.endPoint, radius) then Some(LineEnd)
      else None
  }

  // ---------------------------------------------------------------------
  // Resizing
  // ---------------------------------------------------------------------

  /** Which edges of the box each handle drags. */
  predicate MovesLeft(h: Handle) { h == NW || h == SW || h == W }
  predicate MovesRight(h: Handle) { h == NE || h == E || h == SE }
  predicate MovesTop(h: Handle) { h == NW || h == N || h == NE }
  predicate MovesBottom(h: Handle) { h == SE || h == S || h == SW }

  predicate IsBoxHandle(h: Handle) {
    h != LineStart && h != LineEnd && h != ArrowControl
  }

  /**
   * Whether the handle's name contains "w" (resp. "n"); the clamp decides
   * which side stays put by this test on the name.
   */
  predicate NameHasW(h: Handle) { h == NW || h == SW || h == W || h == ArrowControl }
  predicate NameHasN(h: Handle) { h == NW || h == N || h == NE || h == LineStart || h == LineEnd || h == ArrowControl }

  /** The box after dragging handle `h` to `p`: dragged edges follow the pointer, the others stay. */
  function DraggedBox(b: Box, h: Handle, p: Point): Box {
    var left := if MovesLeft(h) then p.x else b.x;
    var right := if MovesRight(h) then p.x else b.x + b.w;
    var top := if MovesTop(h) then p.y else b.y;
    var bottom := if MovesBottom(h) then p.y else b.y + b.h;
    Box(left, top, right - left, bottom - top)
  }

  /** The minimum-size clamp: a too-small extent becomes 12, pinned to the side opposite the handle. */
  function ClampBox(b: Box, h: Handle, d: Box): Box {
    var w := if d.w < MinSize then MinSize else d.w;
    var x := if d.w < MinSize then (if NameHasW(h) then b.x + b.w - MinSize else b.x) else d.x;
    var hh := if d.h < MinSize then MinSize else d.h;
    var y := if d.h < MinSize then (if NameHasN(h) then b.y + b.h - MinSize else b.y) else d.y;
    Box(x, y, w, hh)
  }

  /** The box a resize aims for. */
  function ResizedBox(b: Box, h: Handle, p: Point): (r: Box)
    ensures r.w >= MinSize && r.h >= MinSize
  {
    ClampBox(b, h, DraggedBox(b, h, p))
  }

  /** `getAnchorPoint`: the corner or edge midpoint opposite the handle. */
  function AnchorPoint(h: Handle, b: Box): Point {
    match h
    case NW => Point(b.x + b.w, b.y + b.h)
    case N => Point(b.x + b.w / 2.0, b.y + b.h)
    case NE => Point(b.x, b.y + b.h)
    case E => Point(b.x, b.y + b.h / 2.0)
    case SE => Point(b.x, b.y)
    case S => Point(b.x + b.w / 2.0, b.y)
    case SW => Point(b.x + b.w, b.y)
    case W => Point(b.x + b.w, b.y + b.h / 2.0)
    case LineStart => Point(b.x, b.y)
    case LineEnd => Point(b.x, b.y)
    case ArrowControl => Point(b.x, b.y)
  }

  /**
   * The scale factor taking `extent` to `target`. A zero extent (a flat
   * selection, such as one horizontal line) keeps scale 1.
   */
  function ScaleFactor(target: real, extent: real): (s: real)
    ensures extent != 0.0 ==> s * extent == target
    ensures extent == 0.0 ==> s == 1.0
  {
    if extent == 0.0 then 1.0 else target / extent
  }

  /**
   * `getResizedBounds`: the anchor and the two scale factors, computed by
   * per-handle assignments to the new edges, then the clamp.
   */
  method GetResizedBounds(bounds: Box, handle: Handle, p: Point) returns (anchor: Point, sx: real, sy: real)
    ensures anchor == AnchorPoint(handle, bounds)
    ensures sx == ScaleFactor(ResizedBox(bounds, handle, p).w, bounds.w)
    ensures sy == ScaleFactor(ResizedBox(bounds, handle, p).h, bounds.h)
  {
    var x, y, w, h := bounds.x, bounds.y, bounds.w, bounds.h;
    var newX, newY, newW, newH := x, y, w, h;
    match handle {
      case NW => newX, newY, newW, newH := p.x, p.y, x + w - p.x, y + h - p.y;
      case N => newY, newH := p.y, y + h - p.y;
      case NE => newY, newW, newH := p.y, p.x - x, y + h - p.y;
      case E => newW := p.x - x;
      case SE => newW, newH := p.x - x, p.y - y;
      case S => newH := p.y - y;
      case SW => newX, newW, newH := p.x, x + w - p.x, p.y - y;
      case W => newX, newW := p.x, x + w - p.x;
      case LineStart =>
      case LineEnd =>
      case ArrowControl =>
    }
    if handle == N || handle == S {
      newX, newW := x, w;
    }
    if handle == E || handle == W {
      newY, newH := y, h;
    }
    if newW < MinSize {
      newW := MinSize;
      newX := if NameHasW(handle) then x + w - MinSize else x;
    }
    if newH < MinSize {
      newH := MinSize;
      newY := if NameHasN(handle) then y + h - MinSize else y;
    }
    assert Box(newX, newY, newW, newH) == ResizedBox(bounds, handle, p);
    sx := ScaleFactor(newW, w);
    sy := ScaleFactor(newH, h);
    anchor := AnchorPoint(handle, bounds);
  }

  /** `scalePoint`: scale the offset from the anchor by `sx` and `sy`. */
  function ScalePoint(pt: Point, anchor: Point, sx: real, sy: real): (r: Point)
    ensures pt == anchor ==> r == anchor
    ensures sx == 1.0 ==> r.x == pt.x
    ensures sy == 1.0 ==> r.y == pt.y
  {
    Point(anchor.x + (pt.x - anchor.x) * sx, anchor.y + (pt.y - anchor.y) * sy)
  }

  /** A box scaled about an anchor: its corner is scaled, its extents multiplied. */
  function ScaleBox(b: Box, anchor: Point, sx: real, sy: real): Box {
    var corner := ScalePoint(Point(b.x, b.y), anchor, sx, sy);
    Box(corner.x, corner.y, b.w * sx, b.h * sy)
  }

  /** A non-degenerate selection never scales below the minimum size. */
  lemma ResizeRespectsMinSize(b: Box, h: Handle, p: Point)
    requires b.w > 0.0 && b.h > 0.0
    ensures ScaleFactor(ResizedBox(b, h, p).w, b.w) * b.w >= MinSize
    ensures ScaleFactor(ResizedBox(b, h, p).h, b.h) * b.h >= MinSize
    ensures ScaleFactor(ResizedBox(b, h, p).w, b.w) > 0.0 && ScaleFactor(ResizedBox(b, h, p).h, b.h) > 0.0
  {
    var sx := ScaleFactor(ResizedBox(b, h, p).w, b.w);
    var sy := ScaleFactor(ResizedBox(b, h, p).h, b.h);
    if sx <= 0.0 {
      HitTest.MulNonNeg(-sx, b.w);
    }
    if sy <= 0.0 {
      HitTest.MulNonNeg(-sy, b.h);
    }
  }

  /**
   * The n and s handles leave the width alone once it is at least the
   * minimum size, and e and w leave the height alone likewise. (A thinner
   * extent is widened to the minimum size by the clamp.)
   */
  lemma EdgeHandlesKeepOtherAxis(b: Box, h: Handle, p: Point)
    ensures (h == N || h == S) && b.w >= MinSize ==> ScaleFactor(ResizedBox(b, h, p).w, b.w) == 1.0
    ensures (h == E || h == W) && b.h >= MinSize ==> ScaleFactor(ResizedBox(b, h, p).h, b.h) == 1.0
  {
  }

  /** The clamp example: handle se of `{0, 0, 20, 20}` dragged to `(2, 2)` scales both axes to 12/20. */
  lemma ResizeClampExample()
    ensures ResizedBox(Box(0.0, 0.0, 20.0, 20.0), SE, Point(2.0, 2.0)) == Box(0.0, 0.0, 12.0, 12.0)
    ensures ScaleFactor(12.0, 20.0) == 0.6
  {
  }

  lemma ScaleAxis(lo: real, ext: real, a: real, s: real, newLo: real, newExt: real)
    requires ext != 0.0 && s * ext == newExt
    requires a == lo + ext || a == lo
    requires a == lo + ext ==> newLo == a - newExt
    requires a == lo ==> newLo == lo
    ensures a + (lo - a) * s == newLo
  {
    if a == lo + ext {
      assert (lo - a) * s == -(s * ext);
    }
  }

  /**
   * Scaling the selection box about the anchor with the computed factors
   * yields exactly the resized box, for every box handle on a non-flat box.
   * For n and s the width must already be at least the minimum size (and
   * for e and w the height), as the clamp otherwise widens the other axis
   * about the edge midpoint rather than at the box's left (top) side.
   */
  /** The horizontal half of the theorem below. */
  lemma ScaledAxisX(b: Box, h: Handle, p: Point)
    requires IsBoxHandle(h)
    requires b.w > 0.0
    requires (h == N || h == S) ==> b.w >= MinSize
    ensures var r := ResizedBox(b, h, p);
      var a := AnchorPoint(h, b);
      var sx := ScaleFactor(r.w, b.w);
      a.x + (b.x - a.x) * sx == r.x && b.w * sx == r.w
  {
    var r := ResizedBox(b, h, p);
    var a := AnchorPoint(h, b);
    var sx := ScaleFactor(r.w, b.w);
    assert b.w * sx == r.w;
    if h == N || h == S {
      assert r.w == b.w && r.x == b.x;
      assert sx == 1.0 by {
        assert b.w / b.w == 1.0;
      }
    } else {
      assert MovesLeft(h) == NameHasW(h);
      ScaleAxis(b.x, b.w, a.x, sx, r.x, r.w);
    }
  }

  /** The vertical half of the theorem below. */
  lemma ScaledAxisY(b: Box, h: Handle, p: Point)
    requires IsBoxHandle(h)
    requires b.h > 0.0
    requires (h == E || h == W) ==> b.h >= MinSize
    ensures var r := ResizedBox(b, h, p);
      var a := AnchorPoint(h, b);
      var sy := ScaleFactor(r.h, b.h);
      a.y + (b.y - a.y) * sy == r.y && b.h * sy == r.h
  {
    var r := ResizedBox(b, h, p);
    var a := AnchorPoint(h, b);
    var sy := ScaleFactor(r.h, b.h);
    assert b.h * sy == r.h;
    if h == E || h == W {
      assert r.h == b.h && r.y == b.y;
      assert sy == 1.0 by {
        assert b.h / b.h == 1.0;
      }
    } else {
      assert MovesTop(h) == NameHasN(h);
      ScaleAxis(b.y, b.h, a.y, sy, r.y, r.h);
    }
  }

  /**
   * Scaling the selection box about the anchor with the computed factors
   * yields exactly the resized box, for every box handle on a non-flat box.
   * For n and s the width must already be at least the minimum size (and
   * for e and w the height), as the clamp otherwise widens the other axis
   * from the box's left (top) side while the anchor sits at its middle.
   */
  lemma ScaledSelectionIsResizedBox(b: Box, h: Handle, p: Point)
    requires IsBoxHandle(h)
    requires b.w > 0.0 && b.h > 0.0
    requires (h == N || h == S) ==> b.w >= MinSize
    requires (h == E || h == W) ==> b.h >= MinSize
    ensures ScaleBox(b, AnchorPoint(h, b), ScaleFactor(ResizedBox(b, h, p).w, b.w),
                     ScaleFactor(ResizedBox(b, h, p).h, b.h)) == ResizedBox(b, h, p)
  {
    var r := ResizedBox(b, h, p);
    var a := AnchorPoint(h, b);
    var sx, sy := ScaleFactor(r.w, b.w), ScaleFactor(r.h, b.h);
    ScaledAxisX(b, h, p);
    ScaledAxisY(b, h, p);
    assert ScalePoint(Point(b.x, b.y), a, sx, sy) == Point(r.x, r.y);
    assert ScaleBox(b, a, sx, sy) == Box(r.x, r.y, r.w, r.h);
  }

  // ---------------------------------------------------------------------
  // Scaling and translating shapes
  // ---------------------------------------------------------------------

  function ScalePoints(pts: seq<Point>, anchor: Point, sx: real, sy: real): (r: seq<Point>)
    ensures |r| == |pts| && forall k :: 0 <= k < |pts| ==> r[k] == ScalePoint(pts[k], anchor, sx, sy)
  {
    seq(|pts|, k requires 0 <= k < |pts| => ScalePoint(pts[k], anchor, sx, sy))
  }

  /**
   * `scaleShape`: every defining point is scaled about the anchor; widths
   * and heights are multiplied; a text's top-left corner is what is scaled;
   * a circle's radius is scaled by the mean of the two factors.
   */
  function ScaleShape(s: Shape, anchor: Point, sx: real, sy: real): (r: Shape)
    ensures r.id == s.id && r.style == s.style
    ensures s.Circle? ==> r.Circle? && r.r == s.r * ((sx + sy) / 2.0) &&
                          Point(r.cx, r.cy) == ScalePoint(Point(s.cx, s.cy), anchor, sx, sy)
  {
    match s
    case Rect(id, x, y, w, h, st) =>
      Rect(id, anchor.x + (x - anchor.x) * sx, anchor.y + (y - anchor.y) * sy, w * sx, h * sy, st)
    case Text(id, x, y, txt, fs, ff, col, w, h, lay, st) =>
      var scaled := ScalePoint(Point(x, y - h), anchor, sx, sy);
      Text(id, scaled.x, scaled.y + h * sy, txt, fs, ff, col, w * sx, h * sy, lay, st)
    case Circle(id, cx, cy, r, st) =>
      var center := ScalePoint(Point(cx, cy), anchor, sx, sy);
      var scale := (sx + sy) / 2.0;
      Circle(id, center.x, center.y, r * scale, st)
    case Line(id, a, b, st) =>
      Line(id, ScalePoint(a, anchor, sx, sy), ScalePoint(b, anchor, sx, sy), st)
    case Arrow(id, a, b, cp, st) =>
      var cp' := if cp.Some? then Some(ScalePoint(cp.value, anchor, sx, sy)) else None;
      Arrow(id, ScalePoint(a, anchor, sx, sy), ScalePoint(b, anchor, sx, sy), cp', st)
    case Rhombus(id, top, bottom, left, right, st) =>
      Rhombus(id, ScalePoint(top, anchor, sx, sy), ScalePoint(bottom, anchor, sx, sy),
              ScalePoint(left, anchor, sx, sy), ScalePoint(right, anchor, sx, sy), st)
    case Pencil(id, pts, st) =>
      Pencil(id, ScalePoints(pts, anchor, sx, sy), st)
  }

  /** Scaling a rect scales its box about the anchor. */
  lemma ScaleRectBounds(s: Shape, anchor: Point, sx: real, sy: real)
    requires s.Rect?
    ensures HitTest.ShapeBounds(ScaleShape(s, anchor, sx, sy)) ==
            Some(ScaleBox(HitTest.ShapeBounds(s).value, anchor, sx, sy))
  {
    var t := ScaleShape(s, anchor, sx, sy);
    assert t == Rect(s.id, anchor.x + (s.x - anchor.x) * sx, anchor.y + (s.y - anchor.y) * sy, s.w * sx, s.h * sy, s.style);
    assert HitTest.ShapeBounds(s) == Some(Box(s.x, s.y, s.w, s.h));
    assert HitTest.ShapeBounds(t) == Some(Box(t.x, t.y, t.w, t.h));
    assert ScaleBox(Box(s.x, s.y, s.w, s.h), anchor, sx, sy) == Box(t.x, t.y, t.w, t.h);
  }

  /** Scaling a text shape scales its box (which hangs above the baseline) about the anchor. */
  lemma ScaleTextBounds(s: Shape, anchor: Point, sx: real, sy: real)
    requires s.Text?
    ensures HitTest.ShapeBounds(ScaleShape(s, anchor, sx, sy)) ==
            Some(ScaleBox(HitTest.ShapeBounds(s).value, anchor, sx, sy))
  {
    var scaled := ScalePoint(Point(s.x, s.y - s.h), anchor, sx, sy);
    var t := ScaleShape(s, anchor, sx, sy);
    assert t == Text(s.id, scaled.x, scaled.y + s.h * sy, s.text, s.fontSize, s.fontFamily, s.color,
                     s.w * sx, s.h * sy, s.layout, s.style);
    assert HitTest.ShapeBounds(s) == Some(Box(s.x, s.y - s.h, s.w, s.h));
    assert HitTest.ShapeBounds(t) == Some(Box(t.x, t.y - t.h, t.w, t.h));
    assert t.y - t.h == scaled.y;
    assert ScaleBox(Box(s.x, s.y - s.h, s.w, s.h), anchor, sx, sy) == Box(t.x, t.y - t.h, t.w, t.h);
  }

  /** Scaling a circle by one common factor scales its box about the anchor. */
  lemma ScaleCircleBounds(s: Shape, anchor: Point, k: real)
    requires s.Circle?
    ensures HitTest.ShapeBounds(ScaleShape(s, anchor, k, k)) ==
            Some(ScaleBox(HitTest.ShapeBounds(s).value, anchor, k, k))
  {
    var c := ScaleShape(s, anchor, k, k);
    var center := ScalePoint(Point(s.cx, s.cy), anchor, k, k);
    assert (k + k) / 2.0 == k;
    assert c == Circle(s.id, center.x, center.y, s.r * k, s.style);
    assert HitTest.ShapeBounds(s) == Some(Box(s.cx - s.r, s.cy - s.r, s.r * 2.0, s.r * 2.0));
    assert HitTest.ShapeBounds(c) == Some(Box(c.cx - c.r, c.cy - c.r, c.r * 2.0, c.r * 2.0));
    assert (s.cx - s.r - anchor.x) * k == (s.cx - anchor.x) * k - s.r * k;
    assert (s.cy - s.r - anchor.y) * k == (s.cy - anchor.y) * k - s.r * k;
    assert s.r * k * 2.0 == s.r * 2.0 * k;
    assert ScaleBox(Box(s.cx - s.r, s.cy - s.r, s.r * 2.0, s.r * 2.0), anchor, k, k)
        == Box(c.cx - c.r, c.cy - c.r, c.r * 2.0, c.r * 2.0);
  }

  function TranslatePoint(pt: Point, dx: real, dy: real): Point {
    Point(pt.x + dx, pt.y + dy)
  }

  function TranslatePoints(pts: seq<Point>, dx: real, dy: real): (r: seq<Point>)
    ensures |r| == |pts| && forall k :: 0 <= k < |pts| ==> r[k] == TranslatePoint(pts[k], dx, dy)
  {
    seq(|pts|, k requires 0 <= k < |pts| => TranslatePoint(pts[k], dx, dy))
  }

  /** The drag update: every defining point of the shape moves by `(dx, dy)`. */
  function Translate(s: Shape, dx: real, dy: real): (r: Shape)
    ensures r.id == s.id && r.style == s.style
  {
    match s
    case Rect(id, x, y, w, h, st) => Rect(id, x + dx, y + dy, w, h, st)
    case Text(id, x, y, txt, fs, ff, col, w, h, lay, st) => Text(id, x + dx, y + dy, txt, fs, ff, col, w, h, lay, st)
    case Circle(id, cx, cy, r, st) => Circle(id, cx + dx, cy + dy, r, st)
    case Line(id, a, b, st) => Line(id, TranslatePoint(a, dx, dy), TranslatePoint(b, dx, dy), st)
    case Arrow(id, a, b, cp, st) =>
      var cp' := if cp.Some? then Some(TranslatePoint(cp.value, dx, dy)) else None;
      Arrow(id, TranslatePoint(a, dx, dy), TranslatePoint(b, dx, dy), cp', st)
    case Rhombus(id, top, bottom, left, right, st) =>
      Rhombus(id, TranslatePoint(top, dx, dy), TranslatePoint(bottom, dx, dy),
              TranslatePoint(left, dx, dy), TranslatePoint(right, dx, dy), st)
    case Pencil(id, pts, st) => Pencil(id, TranslatePoints(pts, dx, dy), st)
  }

  /**
   * Two successive drag steps compose into one step by the summed offset;
   * with `dragStart` advanced to the pointer after every move, a drag moves
   * each shape by the total pointer displacement.
   */
  lemma TranslateCompose(s: Shape, dx1: real, dy1: real, dx2: real, dy2: real)
    ensures Translate(Translate(s, dx1, dy1), dx2, dy2) == Translate(s, dx1 + dx2, dy1 + dy2)
  {
    if s.Pencil? {
      var lhs := TranslatePoints(TranslatePoints(s.points, dx1, dy1), dx2, dy2);
      var rhs := TranslatePoints(s.points, dx1 + dx2, dy1 + dy2);
      assert forall k :: 0 <= k < |lhs| ==> lhs[k] == rhs[k];
      assert lhs == rhs;
    }
  }

  lemma TranslateZero(s: Shape)
    ensures Translate(s, 0.0, 0.0) == s
  {
    if s.Pencil? {
      assert TranslatePoints(s.points, 0.0, 0.0) == s.points;
    }
  }

  /** Moving the pointer along `p0, p1, p2` translates by `p2 - p0`. */
  lemma DragStepsCompose(s: Shape, p0: Point, p1: Point, p2: Point)
    ensures Translate(Translate(s, p1.x - p0.x, p1.y - p0.y), p2.x - p1.x, p2.y - p1.y)
         == Translate(s, p2.x - p0.x, p2.y - p0.y)
  {
    TranslateCompose(s, p1.x - p0.x, p1.y - p0.y, p2.x - p1.x, p2.y - p1.y);
    assert (p1.x - p0.x) + (p2.x - p1.x) == p2.x - p0.x;
    assert (p1.y - p0.y) + (p2.y - p1.y) == p2.y - p0.y;
  }

  /** Moving a segment and the point together keeps the segment hit answer. */
  lemma TranslateKeepsLineHit(p: Point, a: Point, b: Point, dx: real, dy: real)
    ensures HitTest.HitLine(TranslatePoint(p, dx, dy), TranslatePoint(a, dx, dy), TranslatePoint(b, dx, dy))
         == HitTest.HitLine(p, a, b)
  {
    var q, a', b' := TranslatePoint(p, dx, dy), TranslatePoint(a, dx, dy), TranslatePoint(b, dx, dy);
    assert HitTest.LengthSq(a', b') == HitTest.LengthSq(a, b);
    assert HitTest.Dot(q, a', b') == HitTest.Dot(p, a, b);
    var len := HitTest.LengthSq(a, b);
    if len != 0.0 {
      var t := HitTest.Dot(p, a, b) / len;
      assert HitTest.DistSq(q, HitTest.Lerp(a', b', t)) == HitTest.DistSq(p, HitTest.Lerp(a, b, t));
    }
  }

  /** A translated unrotated shape is hit at the translated point exactly where the original was. */
  lemma TranslateKeepsRectHit(s: Shape, p: Point, dx: real, dy: real, rotate: (Point, Point, real) -> Point)
    requires s.Rect? || s.Text? || s.Circle? || s.Line?
    requires RotationOf(s) == 0.0
    ensures HitTest.Hits(TranslatePoint(p, dx, dy), Translate(s, dx, dy), rotate) == HitTest.Hits(p, s, rotate)
  {
    var q, t := TranslatePoint(p, dx, dy), Translate(s, dx, dy);
    assert RotationOf(t) == 0.0;
    assert HitTest.TestPoint(q, t, rotate) == q && HitTest.TestPoint(p, s, rotate) == p;
    if s.Line? {
      TranslateKeepsLineHit(p, s.startPoint, s.endPoint, dx, dy);
    }
  }

  /** `adjustLineEndpoint`: move one endpoint, or re-aim the arrow's control through the pointer. */
  function AdjustLineEndpoint(s: Shape, h: Handle, point: Point): (r: Shape)
    ensures r.id == s.id && r.style == s.style
    ensures !s.Line? && !s.Arrow? ==> r == s
    ensures s.Line? ==> r.Line?
    ensures s.Arrow? ==> r.Arrow? && (h != ArrowControl ==> r.controlPoint == s.controlPoint)
    ensures (s.Line? || s.Arrow?) && h == LineStart ==> (r.Line? || r.Arrow?) && r.startPoint == point && r.endPoint == s.endPoint
    ensures (s.Line? || s.Arrow?) && h == LineEnd ==> (r.Line? || r.Arrow?) && r.endPoint == point && r.startPoint == s.startPoint
    ensures s.Arrow? && h == ArrowControl ==>
      r.Arrow? && r.startPoint == s.startPoint && r.endPoint == s.endPoint &&
      ArrowMidPoint(r.startPoint, r.endPoint, r.controlPoint) == point
  {
    if !s.Line? && !s.Arrow? then s
    else if h == LineStart then s.(startPoint := point)
    else if h == LineEnd then s.(endPoint := point)
    else if h == ArrowControl && s.Arrow? then
      MidPointRoundTrip(s.startPoint, point, s.endPoint, point);
      s.(controlPoint := Some(ControlPointForMidPoint(s.startPoint, point, s.endPoint)))
    else s
  }

  // ---------------------------------------------------------------------
  // The zero-extent resize, as written
  // ---------------------------------------------------------------------

  /** A JavaScript number: finite, or the result of a division by zero. */
  datatype Num = Finite(v: real) | NonFinite

  /** `a / b` in JavaScript: a nonzero number over zero is infinite. */
  function JsDiv(a: real, b: real): (r: Num)
    ensures b != 0.0 ==> r == Finite(a / b)
  {
    if b == 0.0 then NonFinite else Finite(a / b)
  }

  /** The scale factors exactly as `getResizedBounds` divides them: `newW / w`, `newH / h`. */
  function ScaleFactorsAsWritten(b: Box, h: Handle, p: Point): (r: (Num, Num))
    ensures b.w != 0.0 ==> r.0 == Finite(ScaleFactor(ResizedBox(b, h, p).w, b.w))
    ensures b.h != 0.0 ==> r.1 == Finite(ScaleFactor(ResizedBox(b, h, p).h, b.h))
  {
    var r := ResizedBox(b, h, p);
    (JsDiv(r.w, b.w), JsDiv(r.h, b.h))
  }

  /**
   * A single horizontal line `(0,0)-(100,0)` has a selection box of height
   * 0; dragging its n handle to `(50, -20)` divides by that height and the
   * vertical factor is not a finite number, so the line's y coordinates are
   * multiplied by it. The corrected factor is 1 and leaves the line as is.
   */
  lemma FlatSelectionResizeAsWritten()
    ensures HitTest.ShapeBounds(Line("l", Point(0.0, 0.0), Point(100.0, 0.0), NoStyle)) == Some(Box(0.0, 0.0, 100.0, 0.0))
    ensures ScaleFactorsAsWritten(Box(0.0, 0.0, 100.0, 0.0), N, Point(50.0, -20.0)).1 == NonFinite
  {
  }

  /**
   * With the corrected factor, a flat selection dragged by a handle keeps
   * its points on their line: a zero extent scales by 1.
   */
  lemma FlatSelectionResizeCorrected(b: Box, h: Handle, p: Point, pt: Point)
    requires b.h == 0.0
    ensures ScaleFactor(ResizedBox(b, h, p).h, b.h) == 1.0
    ensures ScalePoint(pt, AnchorPoint(h, b), ScaleFactor(ResizedBox(b, h, p).w, b.w),
                       ScaleFactor(ResizedBox(b, h, p).h, b.h)).y == pt.y
  {
  }
}
