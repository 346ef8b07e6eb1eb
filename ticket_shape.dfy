/**
  The two path builders of the ticket: TicketDashedLine, the horizontal
  separator, and TicketShape, the rounded outline with a semicircular notch
  in each side edge.  Each builder is a value with defaulted parameters;
  its path(in:) method appends drawing commands one by one to a fresh path
  and is proved to build the path its specification function describes.
 */
module TicketShapes {
  import opened Geometry
  import opened Paths

  // ---------------------------------------------------------------------
  // The dashed separator line
  // ---------------------------------------------------------------------

  /** A horizontal line at a fraction of the height, pulled up by offset. */
  datatype TicketDashedLine = TicketDashedLine(yPosition: real := 0.75, offset: real := 10.0)
  {
    /** The height at which the line is drawn. */
    function LineY(rect: Rect): real
    {
      rect.MinY() + rect.Height() * yPosition - offset
    }

    /** The line's path in a rectangle: a move to the left edge and a line
        to the right edge, both at LineY. */
    function Elements(rect: Rect): seq<PathElement>
    {
      [Move(Point(rect.MinX(), LineY(rect))), Line(Point(rect.MaxX(), LineY(rect)))]
    }

    /** path(in:): builds the line command by command. */
    method PathIn(rect: Rect) returns (path: seq<PathElement>)
      ensures path == Elements(rect)
    {
      path := [];
      var y := rect.MinY() + rect.Height() * yPosition - offset;
      path := path + [Move(Point(rect.MinX(), y))];
      path := path + [Line(Point(rect.MaxX(), y))];
      assert y == LineY(rect);
    }
  }

  /** The separator is one horizontal segment spanning the rectangle's full
      width at minY + height * yPosition - offset; its extent is that
      segment, of zero height. */
  lemma DashedLineGeometry(line: TicketDashedLine, rect: Rect)
    ensures var p := line.Elements(rect);
      var y := rect.MinY() + rect.Height() * line.yPosition - line.offset;
      && Kinds(p) == [MoveKind, LineKind]
      && Connected(p)
      && p[0].to == Point(rect.MinX(), y) && EndPoint(p[1]) == Point(rect.MaxX(), y)
      && Extent(p) == Some(Box(rect.MinX(), rect.MaxX(), y, y))
      && Extent(p).value.Width() == rect.Width() && Extent(p).value.Height() == 0.0
  {
    var p := line.Elements(rect);
    var y := line.LineY(rect);
    var b := Box(rect.MinX(), rect.MaxX(), y, y);
    assert Points(p) == [Point(rect.MinX(), y), Point(rect.MaxX(), y)] by {
      assert Points(p[1..]) == [Point(rect.MaxX(), y)] by {
        assert p[1..][1..] == [];
      }
    }
    ExtentIsTightest(p, b);
  }

  /** The defaults, and the separator on a 200 by 300 rectangle at the
      origin: at height 215 with the default offset of 10. */
  lemma DashedLineOn200By300()
    ensures TicketDashedLine().yPosition == 0.75 && TicketDashedLine().offset == 10.0
    ensures TicketDashedLine().Elements(Rect(0.0, 0.0, 200.0, 300.0))
            == [Move(Point(0.0, 215.0)), Line(Point(200.0, 215.0))]
    ensures Extent(TicketDashedLine().Elements(Rect(0.0, 0.0, 200.0, 300.0)))
            == Some(Box(0.0, 200.0, 215.0, 215.0))
  {
    var rect := Rect(0.0, 0.0, 200.0, 300.0);
    assert rect.MinX() == 0.0 && rect.MaxX() == 200.0 && rect.MinY() == 0.0 && rect.Height() == 300.0;
    assert TicketDashedLine().LineY(rect) == 215.0;
    DashedLineGeometry(TicketDashedLine(), rect);
  }

  /** With no offset, the separator on the same rectangle lies exactly at
      the notch height, 225, and still spans the full width. */
  lemma DashedLineZeroOffset()
    ensures TicketDashedLine(offset := 0.0).Elements(Rect(0.0, 0.0, 200.0, 300.0))
            == [Move(Point(0.0, 225.0)), Line(Point(200.0, 225.0))]
    ensures Extent(TicketDashedLine(offset := 0.0).Elements(Rect(0.0, 0.0, 200.0, 300.0)))
            == Some(Box(0.0, 200.0, 225.0, 225.0))
  {
    var rect := Rect(0.0, 0.0, 200.0, 300.0);
    assert rect.MinX() == 0.0 && rect.MaxX() == 200.0 && rect.MinY() == 0.0 && rect.Height() == 300.0;
    assert TicketDashedLine(offset := 0.0).LineY(rect) == 225.0;
    DashedLineGeometry(TicketDashedLine(offset := 0.0), rect);
  }

  // ---------------------------------------------------------------------
  // The ticket outline
  // ---------------------------------------------------------------------

  /** A rounded rectangle with a semicircular notch centred on each side
      edge, at a fraction of the height. */
  datatype TicketShape = TicketShape(
    cutoutYPosition: real := 0.75,
    cutoutRadius: real := 8.0,
    cornerRadius: real := 16.0)
  {
    /** The height of both notch centres. */
    function CutoutY(rect: Rect): real
    {
      rect.MinY() + rect.Height() * cutoutYPosition
    }

    /** The outline in a rectangle, traced from the top edge clockwise on
        screen: top edge, top-right corner, right edge with its notch,
        bottom-right corner, bottom edge, bottom-left corner, left edge with
        its notch, top-left corner. */
    function Outline(rect: Rect): seq<PathElement>
    {
      var minX, maxX, minY, maxY := rect.MinX(), rect.MaxX(), rect.MinY(), rect.MaxY();
      var cy, r, c := CutoutY(rect), cutoutRadius, cornerRadius;
      [ Move(Point(minX + c, minY)),
        Line(Point(maxX - c, minY)),
        Quad(Point(maxX, minY + c), Point(maxX, minY)),
        Line(Point(maxX, cy - r)),
        Arc(Point(maxX, cy), r, -90, 90, true),
        Line(Point(maxX, maxY - c)),
        Quad(Point(maxX - c, maxY), Point(maxX, maxY)),
        Line(Point(minX + c, maxY)),
        Quad(Point(minX, maxY - c), Point(minX, maxY)),
        Line(Point(minX, cy + r)),
        Arc(Point(minX, cy), r, 90, -90, true),
        Line(Point(minX, minY + c)),
        Quad(Point(minX + c, minY), Point(minX, minY)) ]
    }

    /** path(in:): builds the outline command by command. */
    method PathIn(rect: Rect) returns (path: seq<PathElement>)
      ensures path == Outline(rect)
    {
      path := [];
      var cutoutY := rect.MinY() + rect.Height() * cutoutYPosition;
      path := path + [Move(Point(rect.MinX() + cornerRadius, rect.MinY()))];
      path := path + [Line(Point(rect.MaxX() - cornerRadius, rect.MinY()))];
      path := path + [Quad(Point(rect.MaxX(), rect.MinY() + cornerRadius), Point(rect.MaxX(), rect.MinY()))];
      path := path + [Line(Point(rect.MaxX(), cutoutY - cutoutRadius))];
      path := path + [Arc(Point(rect.MaxX(), cutoutY), cutoutRadius, -90, 90, true)];
      path := path + [Line(Point(rect.MaxX(), rect.MaxY() - cornerRadius))];
      path := path + [Quad(Point(rect.MaxX() - cornerRadius, rect.MaxY()), Point(rect.MaxX(), rect.MaxY()))];
      path := path + [Line(Point(rect.MinX() + cornerRadius, rect.MaxY()))];
      path := path + [Quad(Point(rect.MinX(), rect.MaxY() - cornerRadius), Point(rect.MinX(), rect.MaxY()))];
      path := path + [Line(Point(rect.MinX(), cutoutY + cutoutRadius))];
      path := path + [Arc(Point(rect.MinX(), cutoutY), cutoutRadius, 90, -90, true)];
      path := path + [Line(Point(rect.MinX(), rect.MinY() + cornerRadius))];
      path := path + [Quad(Point(rect.MinX() + cornerRadius, rect.MinY()), Point(rect.MinX(), rect.MinY()))];
      assert cutoutY == CutoutY(rect);
    }

    /** The corners fit the rectangle and the notches fit the side edges:
        exactly the condition under which the outline stays inside it. */
    predicate Fits(rect: Rect)
    {
      var c, r, cy := cornerRadius, cutoutRadius, CutoutY(rect);
      && 0.0 <= c <= rect.Width() && c <= rect.Height()
      && 0.0 <= r <= rect.Width()
      && rect.MinY() <= cy - r && cy + r <= rect.MaxY()
    }
  }

  /** The outline is one move followed by twelve drawing commands in a
      fixed order, for every rectangle and every parameter value. */
  lemma OutlineCommands(s: TicketShape, rect: Rect)
    ensures !IsEmpty(s.Outline(rect))
    ensures Kinds(s.Outline(rect)) ==
      [MoveKind, LineKind, QuadKind, LineKind, ArcKind, LineKind, QuadKind,
       LineKind, QuadKind, LineKind, ArcKind, LineKind, QuadKind]
  {
  }

  /** The last corner curve ends where the outline started, at the top
      edge, one corner radius in from the left. */
  lemma OutlineClosed(s: TicketShape, rect: Rect)
    ensures Closed(s.Outline(rect))
    ensures s.Outline(rect)[0].to == Point(rect.MinX() + s.cornerRadius, rect.MinY())
  {
  }

  /** The points each notch arc passes: top, innermost and bottom point for
      the right notch, bottom, innermost and top point for the left one. */
  lemma NotchSweeps(s: TicketShape, rect: Rect)
    ensures var p, cy, r := s.Outline(rect), s.CutoutY(rect), s.cutoutRadius;
      && p[4].Arc? && Sweep(p[4]) == 2
      && SweptPoints(p[4]) == [Point(rect.MaxX(), cy - r), Point(rect.MaxX() - r, cy), Point(rect.MaxX(), cy + r)]
      && p[10].Arc? && Sweep(p[10]) == 2
      && SweptPoints(p[10]) == [Point(rect.MinX(), cy + r), Point(rect.MinX() + r, cy), Point(rect.MinX(), cy - r)]
  {
    var p, cy, r := s.Outline(rect), s.CutoutY(rect), s.cutoutRadius;
    var right, left := SweptPoints(p[4]), SweptPoints(p[10]);
    assert SweepAngle(p[4], 1) == -180 && SweepAngle(p[4], 2) == -270;
    assert right[0] == Point(rect.MaxX(), cy - r);
    assert right[1] == Point(rect.MaxX() - r, cy);
    assert right[2] == Point(rect.MaxX(), cy + r);
    assert SweepAngle(p[10], 1) == 0 && SweepAngle(p[10], 2) == -90;
    assert left[0] == Point(rect.MinX(), cy + r);
    assert left[1] == Point(rect.MinX() + r, cy);
    assert left[2] == Point(rect.MinX(), cy - r);
  }

  /** Both notches are semicircles of radius cutoutRadius centred on the
      side edges at the same height minY + height * cutoutYPosition; for a
      non-negative radius each bulges into the ticket, its innermost point
      cutoutRadius in from its edge. */
  lemma OutlineNotches(s: TicketShape, rect: Rect)
    ensures var p, cy, r := s.Outline(rect), rect.MinY() + rect.Height() * s.cutoutYPosition, s.cutoutRadius;
      && p[4] == Arc(Point(rect.MaxX(), cy), r, -90, 90, true)
      && p[10] == Arc(Point(rect.MinX(), cy), r, 90, -90, true)
      && Sweep(p[4]) == 2 && Sweep(p[10]) == 2
      && SweptPoints(p[4])[1] == Point(rect.MaxX() - r, cy)
      && SweptPoints(p[10])[1] == Point(rect.MinX() + r, cy)
  {
    NotchSweeps(s, rect);
  }

  /** Every arc starts exactly where the line before it ends, so the
      outline is one gap-free subpath. */
  lemma OutlineConnected(s: TicketShape, rect: Rect)
    ensures Connected(s.Outline(rect))
  {
  }

  /** The four corner curves are controlled by the four corners of the
      rectangle, in clockwise order from the top right. */
  lemma OutlineCorners(s: TicketShape, rect: Rect)
    ensures var p := s.Outline(rect);
      && p[2].control == Point(rect.MaxX(), rect.MinY())
      && p[6].control == Point(rect.MaxX(), rect.MaxY())
      && p[8].control == Point(rect.MinX(), rect.MaxY())
      && p[12].control == Point(rect.MinX(), rect.MinY())
  {
  }

  /** The reflection of a sequence of points about the rectangle's vertical
      midline, taken in reverse order. */
  function ReflectReversed(pts: seq<Point>, rect: Rect): seq<Point>
  {
    if pts == [] then [] else ReflectReversed(pts[1..], rect) + [Reflect(pts[0], rect)]
  }

  /** Mirroring three points reverses them and reflects each one. */
  lemma ReflectReversedThree(a: Point, b: Point, c: Point, rect: Rect)
    ensures ReflectReversed([a, b, c], rect) == [Reflect(c, rect), Reflect(b, rect), Reflect(a, rect)]
  {
    assert [c][1..] == [];
    assert ReflectReversed([c], rect) == [Reflect(c, rect)];
    assert [b, c][1..] == [c];
    assert ReflectReversed([b, c], rect) == [Reflect(c, rect), Reflect(b, rect)];
    assert [a, b, c][1..] == [b, c];
  }

  /** A point appended to a sequence comes out first once mirrored. */
  lemma {:induction false} ReflectReversedAppend(pts: seq<Point>, q: Point, rect: Rect)
    ensures ReflectReversed(pts + [q], rect) == [Reflect(q, rect)] + ReflectReversed(pts, rect)
  {
    if pts == [] {
      assert pts + [q] == [q];
      assert [q][1..] == [];
    } else {
      assert (pts + [q])[1..] == pts[1..] + [q];
      ReflectReversedAppend(pts[1..], q, rect);
    }
  }

  /** Reversing and mirroring twice gives the point sequence back. */
  lemma {:induction false} ReflectReversedInvolution(pts: seq<Point>, rect: Rect)
    ensures ReflectReversed(ReflectReversed(pts, rect), rect) == pts
  {
    if pts != [] {
      var rest := ReflectReversed(pts[1..], rect);
      ReflectReversedAppend(rest, Reflect(pts[0], rect), rect);
      ReflectReversedInvolution(pts[1..], rect);
      ReflectInvolution(pts[0], rect);
      assert pts == [pts[0]] + pts[1..];
    }
  }

  /** The outline's end points are symmetric about the rectangle's vertical
      midline: end point k is the mirror image of end point 13 - k, end
      point 13 being the starting point reached again by the last curve. */
  lemma OutlineMirrorEndPoints(s: TicketShape, rect: Rect)
    ensures var p := s.Outline(rect);
      forall k :: 1 <= k <= 12 ==> Reflect(EndPoint(p[k]), rect) == EndPoint(p[13 - k])
  {
  }

  /** Reflected about the vertical midline and retraced backwards, the
      right half of the outline is its left half: command k mirrors command
      14 - k, of the same kind, with mirrored control points, centres and
      swept points and the same radius. */
  lemma OutlineMirrorCommands(s: TicketShape, rect: Rect)
    ensures var p := s.Outline(rect);
      && (forall k :: 2 <= k <= 12 ==> p[k].Kind() == p[14 - k].Kind())
      && (forall k :: 2 <= k <= 12 && p[k].Quad? ==> Reflect(p[k].control, rect) == p[14 - k].control)
      && (forall k :: 2 <= k <= 12 && p[k].Arc? ==>
            && Reflect(p[k].center, rect) == p[14 - k].center
            && p[k].radius == p[14 - k].radius
            && ReflectReversed(SweptPoints(p[k]), rect) == SweptPoints(p[14 - k]))
  {
    MirrorKinds(s, rect);
    MirrorControls(s, rect);
    MirrorArcs(s, rect);
  }

  /** The arcs of the outline mirror each other. */
  lemma MirrorArcs(s: TicketShape, rect: Rect)
    ensures var p := s.Outline(rect);
      forall k :: 2 <= k <= 12 && p[k].Arc? ==>
        && Reflect(p[k].center, rect) == p[14 - k].center
        && p[k].radius == p[14 - k].radius
        && ReflectReversed(SweptPoints(p[k]), rect) == SweptPoints(p[14 - k])
  {
    var p := s.Outline(rect);
    MirrorNotches(s, rect);
    ArcsAreNotches(s, rect);
    forall k | 2 <= k <= 12 && p[k].Arc? ensures
            && Reflect(p[k].center, rect) == p[14 - k].center
            && p[k].radius == p[14 - k].radius
            && ReflectReversed(SweptPoints(p[k]), rect) == SweptPoints(p[14 - k])
    {
      if k == 4 {
        assert p[k] == p[4] && p[14 - k] == p[10];
      } else {
        assert p[k] == p[10] && p[14 - k] == p[4];
      }
    }
  }

  /** The only arcs of the outline are the two notches, commands 4 and 10. */
  lemma ArcsAreNotches(s: TicketShape, rect: Rect)
    ensures var p := s.Outline(rect);
      forall k :: 0 <= k < |p| && p[k].Arc? ==> k == 4 || k == 10
  {
  }

  /** Command k and command 14 - k are of the same kind. */
  lemma MirrorKinds(s: TicketShape, rect: Rect)
    ensures var p := s.Outline(rect);
      forall k :: 2 <= k <= 12 ==> p[k].Kind() == p[14 - k].Kind()
  {
  }

  /** The corner curves' control points mirror each other. */
  lemma MirrorControls(s: TicketShape, rect: Rect)
    ensures var p := s.Outline(rect);
      forall k :: 2 <= k <= 12 && p[k].Quad? ==> Reflect(p[k].control, rect) == p[14 - k].control
  {
  }

  /** The two notches mirror each other: centres, radii and swept points. */
  lemma MirrorNotches(s: TicketShape, rect: Rect)
    ensures var p := s.Outline(rect);
      && Reflect(p[4].center, rect) == p[10].center && Reflect(p[10].center, rect) == p[4].center
      && p[4].radius == p[10].radius
      && ReflectReversed(SweptPoints(p[4]), rect) == SweptPoints(p[10])
      && ReflectReversed(SweptPoints(p[10]), rect) == SweptPoints(p[4])
  {
    var p := s.Outline(rect);
    NotchSweeps(s, rect);
    var right, left := SweptPoints(p[4]), SweptPoints(p[10]);
    ReflectReversedThree(right[0], right[1], right[2], rect);
    ReflectReversedThree(left[0], left[1], left[2], rect);
  }

  /** Every bounding point of the element lies in the box. */
  predicate ElementInside(e: PathElement, b: Box)
  {
    forall q :: q in HullPoints(e) ==> b.Contains(q)
  }

  /** When the corners and notches fit, every bounding point of every
      command lies in the rectangle. */
  lemma FittingOutlineInside(s: TicketShape, rect: Rect)
    requires s.Fits(rect)
    ensures var p := s.Outline(rect);
      forall i, q :: 0 <= i < |p| && q in HullPoints(p[i]) ==> rect.Bounds().Contains(q)
  {
    var p, b := s.Outline(rect), rect.Bounds();
    RightHalfInside(s, rect);
    LeftHalfInside(s, rect);
    assert forall i :: 0 <= i < |p| ==> ElementInside(p[i], b);
  }

  lemma RightHalfInside(s: TicketShape, rect: Rect)
    requires s.Fits(rect)
    ensures forall i :: 0 <= i <= 6 ==> ElementInside(s.Outline(rect)[i], rect.Bounds())
  {
    TopRightInside(s, rect);
    RightNotchInside(s, rect);
    var p, b := s.Outline(rect), rect.Bounds();
    assert ElementInside(p[5], b);
    assert ElementInside(p[6], b);
  }

  /** The top edge and the top-right corner stay inside. */
  lemma TopRightInside(s: TicketShape, rect: Rect)
    requires s.Fits(rect)
    ensures forall i :: 0 <= i <= 3 ==> ElementInside(s.Outline(rect)[i], rect.Bounds())
  {
    var p, b := s.Outline(rect), rect.Bounds();
    assert ElementInside(p[0], b);
    assert ElementInside(p[1], b);
    assert ElementInside(p[2], b);
    assert ElementInside(p[3], b);
  }

  /** The right notch stays inside. */
  lemma RightNotchInside(s: TicketShape, rect: Rect)
    requires s.Fits(rect)
    ensures ElementInside(s.Outline(rect)[4], rect.Bounds())
  {
    NotchSweeps(s, rect);
  }

  lemma LeftHalfInside(s: TicketShape, rect: Rect)
    requires s.Fits(rect)
    ensures forall i :: 7 <= i <= 12 ==> ElementInside(s.Outline(rect)[i], rect.Bounds())
  {
    var p, b := s.Outline(rect), rect.Bounds();
    assert ElementInside(p[7], b);
    assert ElementInside(p[8], b);
    assert ElementInside(p[9], b);
    assert ElementInside(p[10], b) by {
      NotchSweeps(s, rect);
    }
    assert ElementInside(p[11], b);
    assert ElementInside(p[12], b);
  }

  /** The outline reaches all four edges of the rectangle, whatever the
      parameters: the corner control points lie on them. */
  lemma OutlineTouchesEdges(s: TicketShape, rect: Rect)
    ensures Touches(rect.Bounds(), s.Outline(rect))
  {
    var p := s.Outline(rect);
    ElementPoint(p, 2, Point(rect.MaxX(), rect.MinY()));
    ElementPoint(p, 8, Point(rect.MinX(), rect.MaxY()));
  }

  /** An outline that stays inside the rectangle has corners and notches
      that fit. */
  lemma InsideOutlineFits(s: TicketShape, rect: Rect)
    requires Encloses(rect.Bounds(), s.Outline(rect))
    ensures s.Fits(rect)
  {
    var p, b := s.Outline(rect), rect.Bounds();
    NotchSweeps(s, rect);
    EnclosesByElement(b, p);
    assert b.Contains(p[0].to) && b.Contains(p[2].to);
    assert b.Contains(SweptPoints(p[4])[0]);
    assert b.Contains(SweptPoints(p[4])[1]);
    assert b.Contains(SweptPoints(p[4])[2]);
  }

  /** The outline's extent is the rectangle exactly when the corners and
      notches fit. */
  lemma OutlineExtent(s: TicketShape, rect: Rect)
    ensures Extent(s.Outline(rect)) == Some(rect.Bounds()) <==> s.Fits(rect)
  {
    var p, b := s.Outline(rect), rect.Bounds();
    if s.Fits(rect) {
      FittingOutlineInside(s, rect);
      EnclosesByElement(b, p);
      OutlineTouchesEdges(s, rect);
      ExtentIsTightest(p, b);
    }
    if Extent(p) == Some(b) {
      InsideOutlineFits(s, rect);
    }
  }

  /** The defaults, and their outline on a 200 by 300 rectangle at the
      origin: it is not empty and its extent is the rectangle, 200 wide and
      300 high. */
  lemma DefaultOutlineOn200By300()
    ensures TicketShape().cutoutYPosition == 0.75
    ensures TicketShape().cutoutRadius == 8.0 && TicketShape().cornerRadius == 16.0
    ensures var p := TicketShape().Outline(Rect(0.0, 0.0, 200.0, 300.0));
      && !IsEmpty(p)
      && Extent(p) == Some(Box(0.0, 200.0, 0.0, 300.0))
      && Extent(p).value.Width() == 200.0 && Extent(p).value.Height() == 300.0
  {
    var rect := Rect(0.0, 0.0, 200.0, 300.0);
    assert rect.Bounds() == Box(0.0, 200.0, 0.0, 300.0);
    assert rect.Width() == 200.0 && rect.Height() == 300.0;
    assert TicketShape().CutoutY(rect) == 225.0;
    assert TicketShape().Fits(rect);
    OutlineExtent(TicketShape(), rect);
  }

  /** With both radii zero the outline is still thirteen commands, and its
      extent is the rectangle. */
  lemma ZeroRadiiOutline(rect: Rect)
    ensures var square := TicketShape(cutoutRadius := 0.0, cornerRadius := 0.0);
      && |square.Outline(rect)| == 13
      && Extent(square.Outline(rect)) == Some(rect.Bounds())
  {
    var square := TicketShape(cutoutRadius := 0.0, cornerRadius := 0.0);
    assert square.CutoutY(rect) == rect.MinY() + rect.Height() * 0.75;
    assert square.Fits(rect);
    OutlineExtent(square, rect);
  }

  /** With the notches centred on the top or the bottom edge the outline
      is still thirteen commands, but the default notch then reaches out of
      the rectangle, so the extent is larger than it. */
  lemma ExtremeCutoutOutlines(rect: Rect)
    ensures var top, bottom := TicketShape(cutoutYPosition := 0.0), TicketShape(cutoutYPosition := 1.0);
      && |top.Outline(rect)| == 13 && |bottom.Outline(rect)| == 13
      && Extent(top.Outline(rect)) != Some(rect.Bounds())
      && Extent(bottom.Outline(rect)) != Some(rect.Bounds())
  {
    var top, bottom := TicketShape(cutoutYPosition := 0.0), TicketShape(cutoutYPosition := 1.0);
    assert top.CutoutY(rect) == rect.MinY();
    assert !top.Fits(rect);
    assert bottom.CutoutY(rect) == rect.MaxY();
    assert !bottom.Fits(rect);
    OutlineExtent(top, rect);
    OutlineExtent(bottom, rect);
  }

  /** The default outline does not stay inside every rectangle: in one
      10 wide, narrower than the corner radius of 16, the extent is not the
      rectangle. */
  lemma DefaultOutlineOnNarrowRect()
    ensures Extent(TicketShape().Outline(Rect(0.0, 0.0, 10.0, 300.0))) != Some(Box(0.0, 10.0, 0.0, 300.0))
  {
    var rect := Rect(0.0, 0.0, 10.0, 300.0);
    assert rect.Bounds() == Box(0.0, 10.0, 0.0, 300.0);
    assert !TicketShape().Fits(rect);
    OutlineExtent(TicketShape(), rect);
  }
}
