/**
 * Hit-testing of a scene point against a shape, and the axis-aligned
 * bounding boxes the hit test rotates about. Euclidean distances are
 * compared squared; the rotation itself is a caller-supplied function.
 */
module HitTest {
  import opened Shapes

  /** How far (in canvas pixels) outside a stroke a point still hits it. */
  const HitTolerance: real := 6.0

  /** Number of chords the sampled quadratic arrow is made of. */
  const QuadraticSteps: nat := 20

  // ---------------------------------------------------------------------
  // Small real-arithmetic facts
  // ---------------------------------------------------------------------

  lemma MulNonNeg(a: real, b: real)
    requires a >= 0.0 && b >= 0.0
    ensures a * b >= 0.0
  {
  }

  lemma MulPos(a: real, b: real)
    requires a > 0.0 && b > 0.0
    ensures a * b > 0.0
  {
  }

  /** Multiplying by `k >= 0` keeps `x <= y`. */
  lemma MulMono(k: real, x: real, y: real)
    requires k >= 0.0 && x <= y
    ensures k * x <= k * y
  {
    assert k * y - k * x == k * (y - x);
    MulNonNeg(k, y - x);
  }

  lemma SquareMono(a: real, b: real)
    requires 0.0 <= a <= b
    ensures a * a <= b * b
  {
    MulMono(a, a, b);
    MulMono(b, a, b);
  }

  lemma SquareNonNeg(a: real)
    ensures a * a >= 0.0
  {
    if a < 0.0 {
      assert a * a == (-a) * (-a);
      MulNonNeg(-a, -a);
    } else {
      MulNonNeg(a, a);
    }
  }

  /** `a² <= b²` with `b >= 0` bounds `a` to `[-b, b]`. */
  lemma SquareBound(a: real, b: real)
    requires b >= 0.0 && a * a <= b * b
    ensures -b <= a <= b
  {
    if a > b {
      MulPos(a - b, a + b);
    }
    if a < -b {
      MulPos(-a - b, -a + b);
    }
  }

  // ---------------------------------------------------------------------
  // Boxes
  // ---------------------------------------------------------------------

  /** `hitRect`: the point lies in the closed box. */
  predicate HitRect(p: Point, r: Box) {
    r.x <= p.x <= r.x + r.w && r.y <= p.y <= r.y + r.h
  }

  /** The point lies in the box grown by `m` on every side. */
  predicate NearBox(b: Box, p: Point, m: real) {
    b.x - m <= p.x <= b.x + b.w + m && b.y - m <= p.y <= b.y + b.h + m
  }

  /** `small` lies inside `big`. */
  predicate BoxWithin(small: Box, big: Box) {
    big.x <= small.x && small.x + small.w <= big.x + big.w &&
    big.y <= small.y && small.y + small.h <= big.y + big.h
  }

  lemma NearWithin(p: Point, small: Box, big: Box, m: real)
    requires NearBox(small, p, m) && BoxWithin(small, big)
    ensures NearBox(big, p, m)
  {
  }

  function MinOf(xs: seq<real>): (m: real)
    requires xs != []
    ensures forall k :: 0 <= k < |xs| ==> m <= xs[k]
    ensures exists k :: 0 <= k < |xs| && m == xs[k]
  {
    if |xs| == 1 then xs[0] else Min(xs[0], MinOf(xs[1..]))
  }

  function MaxOf(xs: seq<real>): (m: real)
    requires xs != []
    ensures forall k :: 0 <= k < |xs| ==> m >= xs[k]
    ensures exists k :: 0 <= k < |xs| && m == xs[k]
  {
    if |xs| == 1 then xs[0] else Max(xs[0], MaxOf(xs[1..]))
  }

  function Xs(pts: seq<Point>): (r: seq<real>)
    ensures |r| == |pts| && forall k :: 0 <= k < |pts| ==> r[k] == pts[k].x
  {
    seq(|pts|, k requires 0 <= k < |pts| => pts[k].x)
  }

  function Ys(pts: seq<Point>): (r: seq<real>)
    ensures |r| == |pts| && forall k :: 0 <= k < |pts| ==> r[k] == pts[k].y
  {
    seq(|pts|, k requires 0 <= k < |pts| => pts[k].y)
  }

  /** `{x: min(xs), y: min(ys), w: max(xs) - min(xs), h: max(ys) - min(ys)}` */
  function PointsBox(pts: seq<Point>): (b: Box)
    requires pts != []
    ensures b.w >= 0.0 && b.h >= 0.0
    ensures forall k :: 0 <= k < |pts| ==> HitRect(pts[k], b)
    ensures exists k :: 0 <= k < |pts| && b.x == pts[k].x
    ensures exists k :: 0 <= k < |pts| && b.y == pts[k].y
  {
    var xs := Xs(pts);
    var ys := Ys(pts);
    Box(MinOf(xs), MinOf(ys), MaxOf(xs) - MinOf(xs), MaxOf(ys) - MinOf(ys))
  }

  /** The box of a segment, as the hit test computes it for a line. */
  function SegmentBox(a: Point, b: Point): (r: Box)
    ensures r.w >= 0.0 && r.h >= 0.0
    ensures HitRect(a, r) && HitRect(b, r)
  {
    Box(Min(a.x, b.x), Min(a.y, b.y), Abs(a.x - b.x), Abs(a.y - b.y))
  }

  /** A segment whose ends lie in a box lies in the box. */
  lemma SegmentWithin(a: Point, b: Point, big: Box)
    requires HitRect(a, big) && HitRect(b, big)
    ensures BoxWithin(SegmentBox(a, b), big)
  {
  }

  /**
   * `getShapeBounds` of the hit test. A pencil stroke with no points has no
   * box here (the source's `Math.min()` of nothing is an infinite box that
   * contains nothing).
   */
  function ShapeBounds(s: Shape): (r: Option<Box>)
    ensures r.None? <==> s.Pencil? && s.points == []
    ensures r.Some? && (s.Line? || s.Arrow? || s.Rhombus? || s.Pencil?) ==> r.value.w >= 0.0 && r.value.h >= 0.0
    ensures s.Line? ==> HitRect(s.startPoint, r.value) && HitRect(s.endPoint, r.value)
    ensures s.Arrow? ==> HitRect(s.startPoint, r.value) && HitRect(s.endPoint, r.value)
    ensures s.Arrow? && s.controlPoint.Some? ==> HitRect(s.controlPoint.value, r.value)
    ensures s.Rhombus? ==> HitRect(s.top, r.value) && HitRect(s.right, r.value) &&
                           HitRect(s.bottom, r.value) && HitRect(s.left, r.value)
    ensures s.Pencil? ==> forall k :: 0 <= k < |s.points| ==> HitRect(s.points[k], r.value)
  {
    match s
    case Rect(_, x, y, w, h, _) => Some(Box(x, y, w, h))
    case Text(_, x, y, _, _, _, _, w, h, _, _) => Some(Box(x, y - h, w, h))
    case Line(_, a, b, _) => Some(SegmentBox(a, b))
    case Arrow(_, a, b, cp, _) =>
      var pts := [a, b, cp.GetOr(a)];
      assert HitRect(pts[0], PointsBox(pts)) && HitRect(pts[1], PointsBox(pts));
      assert HitRect(pts[2], PointsBox(pts));
      Some(PointsBox(pts))
    case Circle(_, cx, cy, r, _) => Some(Box(cx - r, cy - r, r * 2.0, r * 2.0))
    case Rhombus(_, top, bottom, left, right, _) =>
      var pts := [top, right, bottom, left];
      assert HitRect(pts[0], PointsBox(pts)) && HitRect(pts[1], PointsBox(pts));
      assert HitRect(pts[2], PointsBox(pts)) && HitRect(pts[3], PointsBox(pts));
      Some(PointsBox(pts))
    case Pencil(_, pts, _) => if pts == [] then None else Some(PointsBox(pts))
  }

  // ---------------------------------------------------------------------
  // Primitive hit tests
  // ---------------------------------------------------------------------

  /** `Math.hypot(dx, dy) <= r + 6`, compared squared. */
  predicate HitCircle(p: Point, cx: real, cy: real, r: real) {
    var dx := p.x - cx;
    var dy := p.y - cy;
    0.0 <= r + HitTolerance && dx * dx + dy * dy <= (r + HitTolerance) * (r + HitTolerance)
  }

  /** The squared comparison agrees with comparing the true distance. */
  lemma HitCircleByDistance(p: Point, cx: real, cy: real, r: real, dist: real)
    requires dist >= 0.0
    requires dist * dist == (p.x - cx) * (p.x - cx) + (p.y - cy) * (p.y - cy)
    ensures HitCircle(p, cx, cy, r) <==> dist <= r + HitTolerance
  {
    var k := r + HitTolerance;
    if dist <= k {
      SquareMono(dist, k);
    }
    if HitCircle(p, cx, cy, r) {
      SquareBound(dist, k);
    }
  }

  /** `|d|²` for the segment from `a` to `b`. */
  function LengthSq(a: Point, b: Point): real {
    (b.x - a.x) * (b.x - a.x) + (b.y - a.y) * (b.y - a.y)
  }

  /** `(p - a)·(b - a)` */
  function Dot(p: Point, a: Point, b: Point): real {
    (p.x - a.x) * (b.x - a.x) + (p.y - a.y) * (b.y - a.y)
  }

  /** `(p - a)×(b - a)` */
  function Cross(p: Point, a: Point, b: Point): real {
    (p.x - a.x) * (b.y - a.y) - (p.y - a.y) * (b.x - a.x)
  }

  /** `a + t·(b - a)` */
  function Lerp(a: Point, b: Point, t: real): Point {
    Point(a.x + t * (b.x - a.x), a.y + t * (b.y - a.y))
  }

  function DistSq(p: Point, q: Point): real {
    (p.x - q.x) * (p.x - q.x) + (p.y - q.y) * (p.y - q.y)
  }

  /**
   * `hitLine`: project the point on the segment; a zero-length segment or a
   * projection parameter outside [0, 1] misses, otherwise the point hits
   * when its distance to the projection is at most the tolerance.
   */
  predicate HitLine(p: Point, a: Point, b: Point) {
    var lengthSq := LengthSq(a, b);
    if lengthSq == 0.0 then false
    else
      var t := Dot(p, a, b) / lengthSq;
      if t < 0.0 || t > 1.0 then false
      else DistSq(p, Lerp(a, b, t)) <= HitTolerance * HitTolerance
  }

  /** The algebra behind `HitLineIff`: `L·|w - t·d|² = (w×d)²` when `t·L = w·d`. */
  lemma ProjectionDistance(wx: real, wy: real, dx: real, dy: real, t: real)
    requires dx * dx + dy * dy > 0.0
    requires t * (dx * dx + dy * dy) == wx * dx + wy * dy
    ensures (dx * dx + dy * dy) * ((wx - t * dx) * (wx - t * dx) + (wy - t * dy) * (wy - t * dy))
         == (wx * dy - wy * dx) * (wx * dy - wy * dx)
  {
    var len := dx * dx + dy * dy;
    var dot := wx * dx + wy * dy;
    var e2 := (wx - t * dx) * (wx - t * dx) + (wy - t * dy) * (wy - t * dy);
    assert e2 == (wx * wx + wy * wy) - 2.0 * t * dot + t * t * len;
    assert t * t * len == t * dot;
    assert len * e2 == len * (wx * wx + wy * wy) - len * t * dot;
    assert len * t * dot == dot * dot;
    assert len * (wx * wx + wy * wy) - dot * dot == (wx * dy - wy * dx) * (wx * dy - wy * dx);
  }

  /**
   * Division-free statement of `hitLine`: with `L = |b - a|²`, the segment
   * is hit exactly when it has length, the dot product `(p - a)·(b - a)`
   * lies in `[0, L]` and the squared perpendicular distance
   * `((p - a)×(b - a))² / L` is at most 36.
   */
  lemma HitLineIff(p: Point, a: Point, b: Point)
    ensures HitLine(p, a, b) <==>
      LengthSq(a, b) != 0.0 && 0.0 <= Dot(p, a, b) <= LengthSq(a, b) &&
      Cross(p, a, b) * Cross(p, a, b) <= HitTolerance * HitTolerance * LengthSq(a, b)
  {
    var len := LengthSq(a, b);
    var dot := Dot(p, a, b);
    SquareNonNeg(b.x - a.x);
    SquareNonNeg(b.y - a.y);
    if len != 0.0 {
      var t := dot / len;
      assert t * len == dot;
      if t < 0.0 {
        MulPos(-t, len);
      } else {
        MulNonNeg(t, len);
      }
      if t > 1.0 {
        MulPos(t - 1.0, len);
        assert dot - len == (t - 1.0) * len;
      } else {
        MulNonNeg(1.0 - t, len);
        assert len - dot == (1.0 - t) * len;
      }
      var e2 := DistSq(p, Lerp(a, b, t));
      ProjectionDistance(p.x - a.x, p.y - a.y, b.x - a.x, b.y - a.y, t);
      assert len * e2 == Cross(p, a, b) * Cross(p, a, b);
      var tol2 := HitTolerance * HitTolerance;
      assert len * e2 - tol2 * len == len * (e2 - tol2);
      if e2 <= tol2 {
        MulNonNeg(len, tol2 - e2);
      } else {
        MulPos(len, e2 - tol2);
      }
    }
  }

  /** The worked example for rectangles: `{10, 10, 100, 50}` holds `(60, 35)` but not `(200, 200)`. */
  lemma RectExample()
    ensures HitRect(Point(60.0, 35.0), Box(10.0, 10.0, 100.0, 50.0))
    ensures !HitRect(Point(200.0, 200.0), Box(10.0, 10.0, 100.0, 50.0))
  {
  }

  /** The segment `(0,0)-(100,0)` is hit at `(50, 3)`, three pixels off it. */
  lemma LineHitExample()
    ensures HitLine(Point(50.0, 3.0), Point(0.0, 0.0), Point(100.0, 0.0))
  {
    var t := Dot(Point(50.0, 3.0), Point(0.0, 0.0), Point(100.0, 0.0)) / LengthSq(Point(0.0, 0.0), Point(100.0, 0.0));
    assert t == 0.5;
  }

  /** The segment `(0,0)-(100,0)` is missed at `(50, 20)`, twenty pixels off it. */
  lemma LineMissExample()
    ensures !HitLine(Point(50.0, 20.0), Point(0.0, 0.0), Point(100.0, 0.0))
  {
    var t := Dot(Point(50.0, 20.0), Point(0.0, 0.0), Point(100.0, 0.0)) / LengthSq(Point(0.0, 0.0), Point(100.0, 0.0));
    assert t == 0.5;
  }

  /** Both coordinates of an offset within the tolerance disc are within the tolerance. */
  lemma OffsetWithinTolerance(e: real, f: real)
    requires e * e + f * f <= HitTolerance * HitTolerance
    ensures -HitTolerance <= e <= HitTolerance && -HitTolerance <= f <= HitTolerance
  {
    SquareNonNeg(e);
    SquareNonNeg(f);
    SquareBound(e, HitTolerance);
    SquareBound(f, HitTolerance);
  }

  /** Points `a + t·(b - a)` with `t` in [0, 1] lie in the segment's box. */
  lemma LerpWithinSegment(a: Point, b: Point, t: real)
    requires 0.0 <= t <= 1.0
    ensures HitRect(Lerp(a, b, t), SegmentBox(a, b))
  {
    BetweenEnds(a.x, b.x, t);
    BetweenEnds(a.y, b.y, t);
  }

  /** A hit segment has a point of its box within the tolerance of `p`. */
  lemma HitLineProjection(p: Point, a: Point, b: Point)
    requires HitLine(p, a, b)
    ensures exists q :: HitRect(q, SegmentBox(a, b)) && DistSq(p, q) <= HitTolerance * HitTolerance
  {
    var t := Dot(p, a, b) / LengthSq(a, b);
    assert 0.0 <= t <= 1.0 && DistSq(p, Lerp(a, b, t)) <= HitTolerance * HitTolerance;
    LerpWithinSegment(a, b, t);
  }

  /** A point within the tolerance of `q` lies in `q`'s square of half-side the tolerance. */
  lemma NearPoint(p: Point, q: Point)
    requires DistSq(p, q) <= HitTolerance * HitTolerance
    ensures -HitTolerance <= p.x - q.x <= HitTolerance && -HitTolerance <= p.y - q.y <= HitTolerance
  {
    OffsetWithinTolerance(p.x - q.x, p.y - q.y);
  }

  lemma HitLineNearSegment(p: Point, a: Point, b: Point)
    requires HitLine(p, a, b)
    ensures NearBox(SegmentBox(a, b), p, HitTolerance)
  {
    HitLineProjection(p, a, b);
    var q :| HitRect(q, SegmentBox(a, b)) && DistSq(p, q) <= HitTolerance * HitTolerance;
    NearPoint(p, q);
  }

  /** `u + t·(v - u)` lies between `u` and `v` for `t` in [0, 1]. */
  lemma BetweenEnds(u: real, v: real, t: real)
    requires 0.0 <= t <= 1.0
    ensures Min(u, v) <= u + t * (v - u) <= Max(u, v)
  {
    if v >= u {
      MulNonNeg(t, v - u);
      MulNonNeg(1.0 - t, v - u);
      assert v - (u + t * (v - u)) == (1.0 - t) * (v - u);
    } else {
      MulNonNeg(t, u - v);
      MulNonNeg(1.0 - t, u - v);
      assert (u + t * (v - u)) - v == (1.0 - t) * (u - v);
      assert u - (u + t * (v - u)) == t * (u - v);
    }
  }

  // ---------------------------------------------------------------------
  // Quadratic arrows
  // ---------------------------------------------------------------------

  /** The point at parameter `t` of the quadratic Bézier from `a` through control `c` to `b`. */
  function QuadraticAt(a: Point, c: Point, b: Point, t: real): (q: Point)
    ensures t == 0.0 ==> q == a
    ensures t == 1.0 ==> q == b
  {
    var mt := 1.0 - t;
    Point(mt * mt * a.x + 2.0 * mt * t * c.x + t * t * b.x,
          mt * mt * a.y + 2.0 * mt * t * c.y + t * t * b.y)
  }

  /** The `i`-th of the 21 sample points of the curve. */
  function Sample(a: Point, c: Point, b: Point, i: nat): Point {
    QuadraticAt(a, c, b, i as real / QuadraticSteps as real)
  }

  /** The sampled polyline runs from the start point to the end point. */
  lemma SampledCurveEnds(a: Point, c: Point, b: Point)
    ensures Sample(a, c, b, 0) == a
    ensures Sample(a, c, b, QuadraticSteps) == b
  {
  }

  /** Some chord of the 20-step sampled curve is hit. */
  predicate QuadraticHit(p: Point, a: Point, c: Point, b: Point) {
    exists i :: 1 <= i <= QuadraticSteps && HitLine(p, Sample(a, c, b, i - 1), Sample(a, c, b, i))
  }

  /** `hitQuadratic`: walk the chords, advancing `prev`, and stop at the first hit. */
  method HitQuadratic(p: Point, a: Point, c: Point, b: Point) returns (hit: bool)
    ensures hit == QuadraticHit(p, a, c, b)
  {
    var prev := a;
    var i := 1;
    while i <= QuadraticSteps
      invariant 1 <= i <= QuadraticSteps + 1
      invariant prev == Sample(a, c, b, i - 1)
      invariant forall k :: 1 <= k < i ==> !HitLine(p, Sample(a, c, b, k - 1), Sample(a, c, b, k))
    {
      var q := Sample(a, c, b, i);
      if HitLine(p, prev, q) {
        return true;
      }
      prev := q;
      i := i + 1;
    }
    return false;
  }

  /** Weights `≥ 0` summing to 1 keep a combination inside `[lo, hi]`. */
  lemma Convex3(wa: real, wc: real, wb: real, xa: real, xc: real, xb: real, lo: real, hi: real)
    requires wa >= 0.0 && wc >= 0.0 && wb >= 0.0 && wa + wc + wb == 1.0
    requires lo <= xa <= hi && lo <= xc <= hi && lo <= xb <= hi
    ensures lo <= wa * xa + wc * xc + wb * xb <= hi
  {
    MulNonNeg(wa, xa - lo);
    MulNonNeg(wc, xc - lo);
    MulNonNeg(wb, xb - lo);
    MulNonNeg(wa, hi - xa);
    MulNonNeg(wc, hi - xc);
    MulNonNeg(wb, hi - xb);
    var sum := wa * xa + wc * xc + wb * xb;
    assert sum - lo == wa * (xa - lo) + wc * (xc - lo) + wb * (xb - lo) by {
      assert lo == (wa + wc + wb) * lo;
    }
    assert hi - sum == wa * (hi - xa) + wc * (hi - xc) + wb * (hi - xb) by {
      assert hi == (wa + wc + wb) * hi;
    }
  }

  /** Every point of the curve for `t` in [0, 1] lies in a box holding `a`, `c` and `b`. */
  lemma QuadraticWithin(a: Point, c: Point, b: Point, t: real, big: Box)
    requires 0.0 <= t <= 1.0
    requires HitRect(a, big) && HitRect(c, big) && HitRect(b, big)
    ensures HitRect(QuadraticAt(a, c, b, t), big)
  {
    var mt := 1.0 - t;
    SquareNonNeg(mt);
    SquareNonNeg(t);
    MulNonNeg(mt, t);
    assert 2.0 * mt * t == 2.0 * (mt * t);
    assert mt * mt + 2.0 * mt * t + t * t == 1.0;
    Convex3(mt * mt, 2.0 * mt * t, t * t, a.x, c.x, b.x, big.x, big.x + big.w);
    Convex3(mt * mt, 2.0 * mt * t, t * t, a.y, c.y, b.y, big.y, big.y + big.h);
  }

  // ---------------------------------------------------------------------
  // Polygons and rhombi
  // ---------------------------------------------------------------------

  /**
   * The edge between vertices `pi` and `pj` straddles the horizontal line
   * through `p` and meets it strictly to the right of `p`.
   */
  predicate EdgeCrosses(p: Point, pi: Point, pj: Point) {
    (pi.y > p.y) != (pj.y > p.y) &&
    p.x < (pj.x - pi.x) * (p.y - pi.y) / (pj.y - pi.y) + pi.x
  }

  /** The vertex before `i`, cyclically. */
  function Prev(i: nat, n: nat): (j: nat)
    requires i < n
    ensures j < n
  {
    if i == 0 then n - 1 else i - 1
  }

  /** Number of crossing edges among the edges ending at vertices `0 .. k-1`. */
  function Crossings(p: Point, poly: seq<Point>, k: nat): nat
    requires k <= |poly|
  {
    if k == 0 then 0
    else Crossings(p, poly, k - 1) + (if EdgeCrosses(p, poly[k - 1], poly[Prev(k - 1, |poly|)]) then 1 else 0)
  }

  /** Even-odd rule: an odd number of crossing edges means inside. */
  predicate InsidePolygon(p: Point, poly: seq<Point>) {
    Crossings(p, poly, |poly|) % 2 == 1
  }

  /** `pointInPolygon`: toggle `inside` at each crossing edge, `j` trailing `i` cyclically. */
  method PointInPolygon(p: Point, poly: seq<Point>) returns (inside: bool)
    ensures inside == InsidePolygon(p, poly)
  {
    inside := false;
    var i := 0;
    var j := |poly| - 1;
    while i < |poly|
      invariant 0 <= i <= |poly|
      invariant i < |poly| ==> j == Prev(i, |poly|)
      invariant inside == (Crossings(p, poly, i) % 2 == 1)
    {
      var intersect := EdgeCrosses(p, poly[i], poly[j]);
      if intersect {
        inside := !inside;
      }
      j := i;
      i := i + 1;
    }
  }

  /** All vertices on one side of the horizontal line through `p`: no edge crosses the ray. */
  lemma {:induction false} NoCrossingsOnOneSide(p: Point, poly: seq<Point>, k: nat)
    requires k <= |poly|
    requires forall v :: 0 <= v < |poly| ==> (poly[v].y > p.y) == (poly[0].y > p.y)
    ensures Crossings(p, poly, k) == 0
  {
    if k > 0 {
      NoCrossingsOnOneSide(p, poly, k - 1);
      var j := Prev(k - 1, |poly|);
      assert (poly[k - 1].y > p.y) == (poly[j].y > p.y);
    }
  }

  lemma OneSideOutside(p: Point, poly: seq<Point>)
    requires poly != []
    requires forall v :: 0 <= v < |poly| ==> (poly[v].y > p.y) == (poly[0].y > p.y)
    ensures !InsidePolygon(p, poly)
  {
    NoCrossingsOnOneSide(p, poly, |poly|);
  }

  /** The vertex order the hit test walks: top, right, bottom, left. */
  function RhombusPolygon(top: Point, right: Point, bottom: Point, left: Point): seq<Point> {
    [top, right, bottom, left]
  }

  /** `hitRhombus`: reject outside the vertex box grown by 6, otherwise ray-cast. */
  predicate RhombusHit(p: Point, top: Point, right: Point, bottom: Point, left: Point) {
    var poly := RhombusPolygon(top, right, bottom, left);
    NearBox(PointsBox(poly), p, HitTolerance) && InsidePolygon(p, poly)
  }

  method HitRhombus(p: Point, top: Point, right: Point, bottom: Point, left: Point) returns (hit: bool)
    ensures hit == RhombusHit(p, top, right, bottom, left)
    ensures hit ==> NearBox(PointsBox(RhombusPolygon(top, right, bottom, left)), p, HitTolerance)
  {
    var polygon := RhombusPolygon(top, right, bottom, left);
    var b := PointsBox(polygon);
    var minX, maxX := b.x, b.x + b.w;
    var minY, maxY := b.y, b.y + b.h;
    if p.x < minX - HitTolerance || p.x > maxX + HitTolerance ||
       p.y < minY - HitTolerance || p.y > maxY + HitTolerance {
      return false;
    }
    hit := PointInPolygon(p, polygon);
  }

  /** A diamond contains its centre; a point level with neither tip row is decided by parity. */
  lemma RhombusExample()
    ensures RhombusHit(Point(50.0, 50.0), Point(50.0, 0.0), Point(100.0, 50.0), Point(50.0, 100.0), Point(0.0, 50.0))
    ensures !RhombusHit(Point(50.0, 101.0), Point(50.0, 0.0), Point(100.0, 50.0), Point(50.0, 100.0), Point(0.0, 50.0))
  {
    var poly := RhombusPolygon(Point(50.0, 0.0), Point(100.0, 50.0), Point(50.0, 100.0), Point(0.0, 50.0));
    var p := Point(50.0, 50.0);
    assert !EdgeCrosses(p, poly[0], poly[3]);
    assert !EdgeCrosses(p, poly[1], poly[0]);
    assert EdgeCrosses(p, poly[2], poly[1]);
    assert !EdgeCrosses(p, poly[3], poly[2]);
    assert Crossings(p, poly, 4) == 1;
    OneSideOutside(Point(50.0, 101.0), poly);
  }

  // ---------------------------------------------------------------------
  // Pencil strokes
  // ---------------------------------------------------------------------

  /** Some pair of consecutive points forms a segment that is hit. */
  predicate PencilHit(p: Point, pts: seq<Point>) {
    exists i :: 0 <= i < |pts| - 1 && HitLine(p, pts[i], pts[i + 1])
  }

  /** `hitPencil`: scan consecutive pairs and stop at the first hit. */
  method HitPencil(p: Point, pts: seq<Point>) returns (hit: bool)
    ensures hit == PencilHit(p, pts)
    ensures |pts| < 2 ==> !hit
  {
    var i := 0;
    while i < |pts| - 1
      invariant 0 <= i <= if |pts| == 0 then 0 else |pts| - 1
      invariant forall k :: 0 <= k < i ==> !HitLine(p, pts[k], pts[k + 1])
    {
      if HitLine(p, pts[i], pts[i + 1]) {
        return true;
      }
      i := i + 1;
    }
    return false;
  }

  // ---------------------------------------------------------------------
  // The dispatching hit test
  // ---------------------------------------------------------------------

  /**
   * The point actually tested: for a rotated shape, the input point rotated
   * by minus the rotation about the centre of the shape's box.
   * `rotate(p, centre, angle)` stands for the trigonometric rotation.
   */
  function TestPoint(p: Point, s: Shape, rotate: (Point, Point, real) -> Point): (q: Point)
    ensures RotationOf(s) == 0.0 ==> q == p
  {
    if RotationOf(s) != 0.0 then
      match ShapeBounds(s)
      case Some(b) => rotate(p, Point(b.x + b.w / 2.0, b.y + b.h / 2.0), -RotationOf(s))
      case None => p
    else p
  }

  /** `hitTest` as a specification: which primitive test applies to each variant. */
  predicate Hits(p: Point, s: Shape, rotate: (Point, Point, real) -> Point) {
    var q := TestPoint(p, s, rotate);
    match s
    case Rect(_, x, y, w, h, _) => HitRect(q, Box(x, y, w, h))
    case Circle(_, cx, cy, r, _) => HitCircle(q, cx, cy, r)
    case Text(_, x, y, _, _, _, _, w, h, _, _) => HitRect(q, Box(x, y - h, w, h))
    case Line(_, a, b, _) => HitLine(q, a, b)
    case Arrow(_, a, b, cp, _) =>
      if cp.Some? then QuadraticHit(q, a, cp.value, b) else HitLine(q, a, b)
    case Rhombus(_, top, bottom, left, right, _) => RhombusHit(q, top, right, bottom, left)
    case Pencil(_, pts, _) => PencilHit(q, pts)
  }

  method HitTest(p: Point, s: Shape, rotate: (Point, Point, real) -> Point) returns (hit: bool)
    ensures hit == Hits(p, s, rotate)
  {
    var q := TestPoint(p, s, rotate);
    match s {
      case Rect(_, x, y, w, h, _) =>
        hit := HitRect(q, Box(x, y, w, h));
      case Circle(_, cx, cy, r, _) =>
        hit := HitCircle(q, cx, cy, r);
      case Text(_, x, y, _, _, _, _, w, h, _, _) =>
        hit := HitRect(q, Box(x, y - h, w, h));
      case Line(_, a, b, _) =>
        hit := HitLine(q, a, b);
      case Arrow(_, a, b, cp, _) =>
        if cp.Some? {
          hit := HitQuadratic(q, a, cp.value, b);
        } else {
          hit := HitLine(q, a, b);
        }
      case Rhombus(_, top, bottom, left, right, _) =>
        hit := HitRhombus(q, top, right, bottom, left);
      case Pencil(_, pts, _) =>
        hit := HitPencil(q, pts);
    }
  }

  /** An unrotated rect or text shape is hit exactly inside its closed box. */
  lemma RectTextHitIff(p: Point, s: Shape, rotate: (Point, Point, real) -> Point)
    requires s.Rect? || s.Text?
    requires RotationOf(s) == 0.0
    ensures Hits(p, s, rotate) <==>
      var top := if s.Rect? then s.y else s.y - s.h;
      s.x <= p.x <= s.x + s.w && top <= p.y <= top + s.h
  {
  }

  lemma CircleHitNearBounds(p: Point, s: Shape)
    requires s.Circle? && HitCircle(p, s.cx, s.cy, s.r)
    ensures NearBox(ShapeBounds(s).value, p, HitTolerance)
  {
    var k := s.r + HitTolerance;
    var dx, dy := p.x - s.cx, p.y - s.cy;
    SquareNonNeg(dx);
    SquareNonNeg(dy);
    SquareBound(dx, k);
    SquareBound(dy, k);
  }

  lemma SampleWithin(a: Point, c: Point, b: Point, i: nat, big: Box)
    requires i <= QuadraticSteps
    requires HitRect(a, big) && HitRect(c, big) && HitRect(b, big)
    ensures HitRect(Sample(a, c, b, i), big)
  {
    QuadraticWithin(a, c, b, i as real / QuadraticSteps as real, big);
  }

  /** A hit on the sampled curve lies near any box holding its three defining points. */
  lemma QuadraticHitNear(p: Point, a: Point, c: Point, b: Point, big: Box)
    requires HitRect(a, big) && HitRect(c, big) && HitRect(b, big)
    requires QuadraticHit(p, a, c, b)
    ensures NearBox(big, p, HitTolerance)
  {
    var i :| 1 <= i <= QuadraticSteps && HitLine(p, Sample(a, c, b, i - 1), Sample(a, c, b, i));
    var u, v := Sample(a, c, b, i - 1), Sample(a, c, b, i);
    SampleWithin(a, c, b, i - 1, big);
    SampleWithin(a, c, b, i, big);
    HitLineNearSegment(p, u, v);
    SegmentWithin(u, v, big);
    NearWithin(p, SegmentBox(u, v), big, HitTolerance);
  }

  lemma ArrowHitNearBounds(p: Point, s: Shape)
    requires s.Arrow?
    requires if s.controlPoint.Some? then QuadraticHit(p, s.startPoint, s.controlPoint.value, s.endPoint)
             else HitLine(p, s.startPoint, s.endPoint)
    ensures NearBox(ShapeBounds(s).value, p, HitTolerance)
  {
    var big := ShapeBounds(s).value;
    var a, b := s.startPoint, s.endPoint;
    if s.controlPoint.Some? {
      QuadraticHitNear(p, a, s.controlPoint.value, b, big);
    } else {
      HitLineNearSegment(p, a, b);
      SegmentWithin(a, b, big);
      NearWithin(p, SegmentBox(a, b), big, HitTolerance);
    }
  }

  lemma PencilHitNearBounds(p: Point, s: Shape)
    requires s.Pencil? && PencilHit(p, s.points)
    ensures ShapeBounds(s).Some?
    ensures NearBox(ShapeBounds(s).value, p, HitTolerance)
  {
    var pts := s.points;
    var big := ShapeBounds(s).value;
    var i :| 0 <= i < |pts| - 1 && HitLine(p, pts[i], pts[i + 1]);
    HitLineNearSegment(p, pts[i], pts[i + 1]);
    SegmentWithin(pts[i], pts[i + 1], big);
    NearWithin(p, SegmentBox(pts[i], pts[i + 1]), big, HitTolerance);
  }

  /**
   * Hit test and bounds agree: an unrotated shape can only be hit inside its
   * bounding box grown by the tolerance. (This is what makes the rhombus's
   * box pre-check a pure shortcut.)
   */
  lemma HitImpliesNearBounds(p: Point, s: Shape, rotate: (Point, Point, real) -> Point)
    requires RotationOf(s) == 0.0
    requires Hits(p, s, rotate)
    ensures ShapeBounds(s).Some?
    ensures NearBox(ShapeBounds(s).value, p, HitTolerance)
  {
    assert TestPoint(p, s, rotate) == p;
    match s
    case Rect(_, _, _, _, _, _) =>
    case Text(_, _, _, _, _, _, _, _, _, _, _) =>
    case Circle(_, _, _, _, _) => CircleHitNearBounds(p, s);
    case Line(_, a, b, _) => HitLineNearSegment(p, a, b);
    case Arrow(_, _, _, _, _) => ArrowHitNearBounds(p, s);
    case Rhombus(_, _, _, _, _, _) =>
    case Pencil(_, _, _) => PencilHitNearBounds(p, s);
  }
}
