/**
  Paths as sequences of drawing commands, in the vocabulary of SwiftUI's
  Path: move-to, line-to, quadratic curve-to and arc.  The module gives each
  command its end point and the points that bound it, says when a path is
  one connected, closed outline, and defines the extent of a path: the
  smallest box around every end point, control point and quarter point an
  arc sweeps through.

  Arc angles are whole multiples of 90 degrees, so every point this module
  needs lies on an axis through the arc's centre and no trigonometry is
  involved.
 */
module Paths {
  import opened Geometry

  datatype Option<T> = None | Some(value: T)

  /** Angles in degrees that are whole quarter turns. */
  type QuarterDegrees = d: int | d % 90 == 0

  datatype ElementKind = MoveKind | LineKind | QuadKind | ArcKind

  /** One drawing command.  Line, Quad and Arc start at the path's current
      point; an Arc whose own start point differs from it is joined to it by
      an implicit straight segment, as Path.addArc does. */
  datatype PathElement =
    | Move(to: Point)
    | Line(to: Point)
    | Quad(to: Point, control: Point)
    | Arc(center: Point, radius: real, startAngle: QuarterDegrees,
          endAngle: QuarterDegrees, clockwise: bool)
  {
    function Kind(): ElementKind
    {
      match this
      case Move(_) => MoveKind
      case Line(_) => LineKind
      case Quad(_, _) => QuadKind
      case Arc(_, _, _, _, _) => ArcKind
    }
  }

  /** The point at a quarter-turn angle on a circle.  With the y axis
      pointing down, 0 degrees points to +x and 90 degrees to +y. */
  function CirclePoint(center: Point, radius: real, angle: QuarterDegrees): (p: Point)
  {
    var a := angle % 360;
    if a == 0 then Point(center.x + radius, center.y)
    else if a == 90 then Point(center.x, center.y + radius)
    else if a == 180 then Point(center.x - radius, center.y)
    else Point(center.x, center.y - radius)
  }

  /** A quarter-turn point lies on the circle, straight across or straight
      along from its centre, at the axis direction its angle names. */
  lemma CirclePointOnCircle(center: Point, radius: real, angle: QuarterDegrees)
    ensures var p := CirclePoint(center, radius, angle);
      && (p.x - center.x) * (p.x - center.x) + (p.y - center.y) * (p.y - center.y) == radius * radius
      && (p.x == center.x || p.y == center.y)
      && (angle % 360 == 0 ==> p.x - center.x == radius)
      && (angle % 360 == 90 ==> p.y - center.y == radius)
      && (angle % 360 == 180 ==> center.x - p.x == radius)
      && (angle % 360 == 270 ==> center.y - p.y == radius)
  {
  }

  /** The number of quarter turns an arc sweeps.  A clockwise arc sweeps
      through decreasing angles (the Core Graphics convention, which shows
      as counter-clockwise on a y-down screen). */
  function Sweep(e: PathElement): (n: nat)
    requires e.Arc?
    ensures n < 4
  {
    var d := if e.clockwise then e.startAngle - e.endAngle else e.endAngle - e.startAngle;
    (d / 90) % 4
  }

  /** The angle reached after i quarter turns along an arc. */
  function SweepAngle(e: PathElement, i: nat): QuarterDegrees
    requires e.Arc?
  {
    if e.clockwise then e.startAngle - 90 * i else e.startAngle + 90 * i
  }

  /** The quarter-turn points an arc passes, from its start to its end. */
  function SweptPoints(e: PathElement): (pts: seq<Point>)
    requires e.Arc?
    ensures |pts| == Sweep(e) + 1
    ensures pts[0] == CirclePoint(e.center, e.radius, e.startAngle)
    ensures pts[|pts| - 1] == CirclePoint(e.center, e.radius, e.endAngle)
    ensures forall i :: 0 <= i < |pts| ==> pts[i] == CirclePoint(e.center, e.radius, SweepAngle(e, i))
  {
    SweepEndsAtEndAngle(e);
    seq(Sweep(e) + 1, i requires 0 <= i <= Sweep(e) =>
      CirclePoint(e.center, e.radius, SweepAngle(e, i)))
  }

  /** Sweeping Sweep(e) quarter turns from the start angle reaches the end
      angle, up to whole turns. */
  lemma SweepEndsAtEndAngle(e: PathElement)
    requires e.Arc?
    ensures SweepAngle(e, Sweep(e)) % 360 == e.endAngle % 360
  {
    var s: int, t: int := e.startAngle, e.endAngle;
    var a: int, b: int := s / 90, t / 90;
    assert s == 90 * a && t == 90 * b;
    if e.clockwise {
      var k: int := a - b;
      assert (s - t) / 90 == k;
      assert k == 4 * (k / 4) + k % 4;
      assert s - 90 * (k % 4) == t + 360 * (k / 4);
      WholeTurns(t, k / 4);
    } else {
      var k: int := b - a;
      assert (t - s) / 90 == k;
      assert k == 4 * (k / 4) + k % 4;
      assert s + 90 * (k % 4) == t + 360 * (-(k / 4));
      WholeTurns(t, -(k / 4));
    }
  }

  /** Adding whole turns does not change an angle modulo 360. */
  lemma WholeTurns(a: int, q: int)
    ensures (a + 360 * q) % 360 == a % 360
  {
  }

  /** Where an arc's own stroke begins. */
  function ArcStart(e: PathElement): Point
    requires e.Arc?
  {
    CirclePoint(e.center, e.radius, e.startAngle)
  }

  /** The current point after the element is drawn. */
  function EndPoint(e: PathElement): Point
  {
    match e
    case Move(p) => p
    case Line(p) => p
    case Quad(p, _) => p
    case Arc(c, r, _, a, _) => CirclePoint(c, r, a)
  }

  /** The points that bound an element: its end point, a curve's control
      point and the quarter points an arc sweeps. */
  function HullPoints(e: PathElement): (pts: seq<Point>)
    ensures |pts| >= 1 && pts[|pts| - 1] == EndPoint(e)
  {
    match e
    case Move(p) => [p]
    case Line(p) => [p]
    case Quad(p, c) => [c, p]
    case Arc(_, _, _, _, _) => SweptPoints(e)
  }

  function Kinds(p: seq<PathElement>): (ks: seq<ElementKind>)
    ensures |ks| == |p| && forall i :: 0 <= i < |p| ==> ks[i] == p[i].Kind()
  {
    seq(|p|, i requires 0 <= i < |p| => p[i].Kind())
  }

  /** Path.isEmpty: the path holds no element. */
  predicate IsEmpty(p: seq<PathElement>)
  {
    |p| == 0
  }

  /** One subpath without gaps: a single leading move, and every arc starts
      exactly where the element before it ended, so that no implicit joining
      segment is drawn. */
  predicate Connected(p: seq<PathElement>)
  {
    && |p| > 0
    && p[0].Move?
    && forall i :: 1 <= i < |p| ==>
         !p[i].Move? && (p[i].Arc? ==> ArcStart(p[i]) == EndPoint(p[i - 1]))
  }

  /** The last element ends at the point the path moved to first. */
  predicate Closed(p: seq<PathElement>)
  {
    |p| > 0 && p[0].Move? && EndPoint(p[|p| - 1]) == p[0].to
  }

  /** All bounding points of a path, element by element. */
  function Points(p: seq<PathElement>): (pts: seq<Point>)
    ensures |pts| >= |p|
  {
    if |p| == 0 then [] else HullPoints(p[0]) + Points(p[1..])
  }

  /** A point is a bounding point of the path exactly when it bounds one of
      its elements. */
  lemma {:induction false} PointsMembership(p: seq<PathElement>, q: Point)
    ensures q in Points(p) <==> exists i :: 0 <= i < |p| && q in HullPoints(p[i])
  {
    if |p| > 0 {
      PointsMembership(p[1..], q);
      if q in Points(p[1..]) {
        var i :| 0 <= i < |p[1..]| && q in HullPoints(p[1..][i]);
        assert p[i + 1] == p[1..][i];
      }
      if exists i :: 0 <= i < |p| && q in HullPoints(p[i]) {
        var i :| 0 <= i < |p| && q in HullPoints(p[i]);
        if i > 0 {
          assert p[1..][i - 1] == p[i];
        }
      }
    }
  }

  /** Every bounding point of the path lies in the box. */
  predicate Encloses(b: Box, p: seq<PathElement>)
  {
    forall q :: q in Points(p) ==> b.Contains(q)
  }

  /** Each of the box's four edges is reached by some bounding point. */
  predicate Touches(b: Box, p: seq<PathElement>)
  {
    && (exists q :: q in Points(p) && q.x == b.minX)
    && (exists q :: q in Points(p) && q.x == b.maxX)
    && (exists q :: q in Points(p) && q.y == b.minY)
    && (exists q :: q in Points(p) && q.y == b.maxY)
  }

  /** The smallest box around a non-empty sequence of points. */
  function BoundsOf(pts: seq<Point>): (b: Box)
    requires |pts| > 0
    ensures forall i :: 0 <= i < |pts| ==> b.Contains(pts[i])
    ensures exists i :: 0 <= i < |pts| && pts[i].x == b.minX
    ensures exists i :: 0 <= i < |pts| && pts[i].x == b.maxX
    ensures exists i :: 0 <= i < |pts| && pts[i].y == b.minY
    ensures exists i :: 0 <= i < |pts| && pts[i].y == b.maxY
  {
    if |pts| == 1 then PointBox(pts[0])
    else
      var rest := BoundsOf(pts[1..]);
      assert forall i :: 1 <= i < |pts| ==> pts[i] == pts[1..][i - 1];
      PointBox(pts[0]).Union(rest)
  }

  /** The extent of a path: the smallest box around all its bounding
      points, or None for the empty path. */
  function Extent(p: seq<PathElement>): (r: Option<Box>)
    ensures r.None? <==> |p| == 0
    ensures r.Some? ==> Encloses(r.value, p) && Touches(r.value, p)
  {
    if |p| == 0 then None else Some(BoundsOf(Points(p)))
  }

  /** A path is empty exactly when it has no extent. */
  lemma EmptyIffNoExtent(p: seq<PathElement>)
    ensures IsEmpty(p) <==> Extent(p).None?
  {
  }

  /** A box that encloses a path and reaches all four of its edges is the
      path's extent (the extent itself is such a box, by its contract). */
  lemma ExtentIsTightest(p: seq<PathElement>, b: Box)
    requires Encloses(b, p) && Touches(b, p)
    ensures Extent(p) == Some(b)
  {
    var e := Extent(p).value;
    SameEdges(p, b, e);
    SameEdges(p, e, b);
  }

  /** When two boxes both enclose a path and both reach all four edges,
      each edge of one lies on or outside the same edge of the other. */
  lemma SameEdges(p: seq<PathElement>, b: Box, e: Box)
    requires Encloses(b, p) && Touches(b, p) && Encloses(e, p)
    ensures e.minX <= b.minX && b.maxX <= e.maxX && e.minY <= b.minY && b.maxY <= e.maxY
  {
    var q1 :| q1 in Points(p) && q1.x == b.minX;
    var q2 :| q2 in Points(p) && q2.x == b.maxX;
    var q3 :| q3 in Points(p) && q3.y == b.minY;
    var q4 :| q4 in Points(p) && q4.y == b.maxY;
    assert e.Contains(q1) && e.Contains(q2) && e.Contains(q3) && e.Contains(q4);
  }

  /** A box encloses a path exactly when it encloses the bounding points of
      each element. */
  lemma EnclosesByElement(b: Box, p: seq<PathElement>)
    ensures Encloses(b, p) <==>
      forall i, q :: 0 <= i < |p| && q in HullPoints(p[i]) ==> b.Contains(q)
  {
    forall q ensures q in Points(p) <==> exists i :: 0 <= i < |p| && q in HullPoints(p[i]) {
      PointsMembership(p, q);
    }
  }

  /** A bounding point of one element is a bounding point of the path. */
  lemma ElementPoint(p: seq<PathElement>, i: int, q: Point)
    requires 0 <= i < |p| && q in HullPoints(p[i])
    ensures q in Points(p)
  {
    PointsMembership(p, q);
  }
}
