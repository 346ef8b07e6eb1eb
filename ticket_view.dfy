/**
  TicketShapeView, the container: a configuration record that wraps opaque
  content, and whose body lays the filled ticket outline and, optionally,
  the stroked separator line behind that content.  Its modifiers return a
  copy with one field replaced.

  Colours and stroke styles are plain values compared for equality;
  rendering (fill, stroke, stacking) is not modelled, only which two shapes
  the body builds, with which parameters, and whether the line layer is
  there.
 */
module TicketViews {
  import opened Geometry
  import opened Paths
  import opened TicketShapes

  /** A colour, known only by its base name and opacity. */
  datatype Color = Color(name: string, opacity: real)

  const White: Color := Color("white", 1.0)

  /** Gray at 30 percent opacity. */
  const TranslucentGray: Color := Color("gray", 0.3)

  /** The part of a stroke style the container passes on: width and dash
      pattern. */
  datatype StrokeStyle = StrokeStyle(lineWidth: real, dash: seq<real>)

  const DefaultDashedStroke: StrokeStyle := StrokeStyle(0.5, [4.0, 4.0])

  /** The separator layer: which line is built and how it is stroked. */
  datatype LineLayer = LineLayer(line: TicketDashedLine, stroke: StrokeStyle, color: Color)

  /** What the body draws: the content in front of a background made of the
      filled outline and, when present, the separator layer over it. */
  datatype Composition<Content> = Composition(
    content: Content,
    shape: TicketShape,
    fill: Color,
    lineLayer: Option<LineLayer>)

  datatype TicketShapeView<Content> = TicketShapeView(
    fillColor: Color := White,
    dashedLineColor: Color := TranslucentGray,
    cutoutYPosition: real := 0.75,
    cutoutRadius: real := 8.0,
    cornerRadius: real := 16.0,
    dashedLineOffset: real := 10.0,
    dashedLineStroke: StrokeStyle := DefaultDashedStroke,
    showDashedLine: bool := true,
    content: Content)
  {
    /** body: the outline built from this view's own notch and corner
        parameters, filled with the fill colour, behind the content; and a
        separator layer exactly when the line is shown, at the same
        fractional position as the notches, with the view's offset, stroke
        and colour. */
    function Body(): (b: Composition<Content>)
      ensures b.content == content
      ensures b.shape == TicketShape(cutoutYPosition, cutoutRadius, cornerRadius)
      ensures b.fill == fillColor
      ensures b.lineLayer.Some? <==> showDashedLine
      ensures b.lineLayer.Some? ==>
        && b.lineLayer.value.line.yPosition == b.shape.cutoutYPosition
        && b.lineLayer.value.line.offset == dashedLineOffset
        && b.lineLayer.value.stroke == dashedLineStroke
        && b.lineLayer.value.color == dashedLineColor
    {
      var shape := TicketShape(cutoutYPosition, cutoutRadius, cornerRadius);
      var layer :=
        if showDashedLine
        then Some(LineLayer(TicketDashedLine(cutoutYPosition, dashedLineOffset),
                            dashedLineStroke, dashedLineColor))
        else None;
      Composition(content, shape, fillColor, layer)
    }

    /** ticketFill(_:): a copy with a new fill colour. */
    function TicketFill(color: Color): (v: TicketShapeView<Content>)
      ensures v.fillColor == color
      ensures v.dashedLineColor == dashedLineColor && v.cutoutYPosition == cutoutYPosition
      ensures v.cutoutRadius == cutoutRadius && v.cornerRadius == cornerRadius
      ensures v.dashedLineOffset == dashedLineOffset && v.dashedLineStroke == dashedLineStroke
      ensures v.showDashedLine == showDashedLine && v.content == content
    {
      this.(fillColor := color)
    }

    /** dashedLineColor(_:): a copy with a new separator colour. */
    function DashedLineColor(color: Color): (v: TicketShapeView<Content>)
      ensures v.dashedLineColor == color
      ensures v.fillColor == fillColor && v.cutoutYPosition == cutoutYPosition
      ensures v.cutoutRadius == cutoutRadius && v.cornerRadius == cornerRadius
      ensures v.dashedLineOffset == dashedLineOffset && v.dashedLineStroke == dashedLineStroke
      ensures v.showDashedLine == showDashedLine && v.content == content
    {
      this.(dashedLineColor := color)
    }

    /** dashedLineStyle(_:): a copy with a new separator stroke style. */
    function DashedLineStyle(style: StrokeStyle): (v: TicketShapeView<Content>)
      ensures v.dashedLineStroke == style
      ensures v.fillColor == fillColor && v.dashedLineColor == dashedLineColor
      ensures v.cutoutYPosition == cutoutYPosition
      ensures v.cutoutRadius == cutoutRadius && v.cornerRadius == cornerRadius
      ensures v.dashedLineOffset == dashedLineOffset
      ensures v.showDashedLine == showDashedLine && v.content == content
    {
      this.(dashedLineStroke := style)
    }

    /** dashedLine(_:): a copy that shows or hides the separator. */
    function DashedLine(show: bool): (v: TicketShapeView<Content>)
      ensures v.showDashedLine == show
      ensures v.fillColor == fillColor && v.dashedLineColor == dashedLineColor
      ensures v.cutoutYPosition == cutoutYPosition
      ensures v.cutoutRadius == cutoutRadius && v.cornerRadius == cornerRadius
      ensures v.dashedLineOffset == dashedLineOffset && v.dashedLineStroke == dashedLineStroke
      ensures v.content == content
    {
      this.(showDashedLine := show)
    }
  }

  /** The defaults of the container. */
  lemma ViewDefaults<Content>(content: Content)
    ensures var v := TicketShapeView(content := content);
      && v.fillColor == White && v.dashedLineColor == TranslucentGray
      && v.cutoutYPosition == 0.75 && v.cutoutRadius == 8.0 && v.cornerRadius == 16.0
      && v.dashedLineOffset == 10.0
      && v.dashedLineStroke.lineWidth == 0.5 && v.dashedLineStroke.dash == [4.0, 4.0]
      && v.showDashedLine
  {
  }

  /** In any rectangle, the separator the body draws runs from the left
      notch centre to the right notch centre, raised by exactly the line
      offset: above the notch centres for a positive offset, below them for
      a negative one. */
  lemma BodyLineAlignedWithNotches<Content>(v: TicketShapeView<Content>, rect: Rect)
    requires v.showDashedLine
    ensures var b := v.Body();
      var outline, line := b.shape.Outline(rect), b.lineLayer.value.line.Elements(rect);
      var left, right := outline[10].center, outline[4].center;
      && line[0].to == Point(left.x, left.y - v.dashedLineOffset)
      && EndPoint(line[1]) == Point(right.x, right.y - v.dashedLineOffset)
      && (line[0].to.y < left.y <==> v.dashedLineOffset > 0.0)
  {
    OutlineNotches(v.Body().shape, rect);
  }

  /** With the default parameters the separator lies above the top of both
      notches, in every rectangle: the offset of 10 exceeds the notch
      radius of 8. */
  lemma DefaultLineClearsNotches<Content>(content: Content, rect: Rect)
    ensures var b := TicketShapeView(content := content).Body();
      var outline, line := b.shape.Outline(rect), b.lineLayer.value.line.Elements(rect);
      && b.lineLayer.Some?
      && line[0].to.y < SweptPoints(outline[4])[0].y
      && line[0].to.y < SweptPoints(outline[10])[2].y
  {
    var v := TicketShapeView(content := content);
    NotchSweeps(v.Body().shape, rect);
    BodyLineAlignedWithNotches(v, rect);
  }

  /** Modifiers that change different fields commute, and a modifier
      applied twice keeps only its last value. */
  lemma ModifiersCommute<Content>(v: TicketShapeView<Content>, fill: Color, lineColor: Color,
                                      style: StrokeStyle, show: bool)
    ensures v.TicketFill(fill).DashedLineColor(lineColor) == v.DashedLineColor(lineColor).TicketFill(fill)
    ensures v.TicketFill(fill).DashedLineStyle(style) == v.DashedLineStyle(style).TicketFill(fill)
    ensures v.TicketFill(fill).DashedLine(show) == v.DashedLine(show).TicketFill(fill)
    ensures v.DashedLineColor(lineColor).DashedLineStyle(style) == v.DashedLineStyle(style).DashedLineColor(lineColor)
    ensures v.DashedLineColor(lineColor).DashedLine(show) == v.DashedLine(show).DashedLineColor(lineColor)
    ensures v.DashedLineStyle(style).DashedLine(show) == v.DashedLine(show).DashedLineStyle(style)
  {
  }

  lemma ModifiersLastWins<Content>(v: TicketShapeView<Content>, a: Color, b: Color,
                                       s1: StrokeStyle, s2: StrokeStyle, x: bool, y: bool)
    ensures v.TicketFill(a).TicketFill(b) == v.TicketFill(b)
    ensures v.DashedLineColor(a).DashedLineColor(b) == v.DashedLineColor(b)
    ensures v.DashedLineStyle(s1).DashedLineStyle(s2) == v.DashedLineStyle(s2)
    ensures v.DashedLine(x).DashedLine(y) == v.DashedLine(y)
  {
  }

  /** The styling modifiers leave the geometry the body builds unchanged:
      the same outline and the same separator line, if any; dashedLine
      only adds or removes the separator layer. */
  lemma ModifiersKeepGeometry<Content>(v: TicketShapeView<Content>, color: Color,
                                           style: StrokeStyle, show: bool)
    ensures v.TicketFill(color).Body().shape == v.Body().shape
    ensures v.DashedLineColor(color).Body().shape == v.Body().shape
    ensures v.DashedLineStyle(style).Body().shape == v.Body().shape
    ensures v.DashedLine(show).Body().shape == v.Body().shape
    ensures v.TicketFill(color).Body().lineLayer.Some? == v.showDashedLine
    ensures v.showDashedLine ==>
      && v.DashedLineColor(color).Body().lineLayer.value.line == v.Body().lineLayer.value.line
      && v.DashedLineStyle(style).Body().lineLayer.value.line == v.Body().lineLayer.value.line
    ensures v.DashedLine(show).Body().lineLayer.Some? == show
    ensures v.TicketFill(color).Body() == v.Body().(fill := color)
    ensures v.DashedLineColor(color).Body().lineLayer.Some? == v.showDashedLine
    ensures v.DashedLineStyle(style).Body().lineLayer.Some? == v.showDashedLine
    ensures show ==>
      v.DashedLine(show).Body().lineLayer.value.line == TicketDashedLine(v.cutoutYPosition, v.dashedLineOffset)
  {
  }

  /** The modifier cases exercised against the default view: each modifier
      sets its field to the given value; and a blue fill on a view with the
      line hidden keeps it hidden. */
  lemma ModifierExamples<Content>(content: Content)
    ensures var hidden := TicketShapeView(showDashedLine := false, content := content);
      var blue := Color("blue", 1.0);
      && hidden.TicketFill(blue).fillColor == blue
      && !hidden.TicketFill(blue).showDashedLine
      && hidden.TicketFill(blue) == hidden.(fillColor := blue)
    ensures var v := TicketShapeView(content := content);
      && v.TicketFill(Color("blue", 1.0)).fillColor == Color("blue", 1.0)
      && v.DashedLineColor(Color("red", 1.0)).dashedLineColor == Color("red", 1.0)
      && v.DashedLineStyle(StrokeStyle(2.0, [10.0, 5.0])).dashedLineStroke.lineWidth == 2.0
      && v.DashedLineStyle(StrokeStyle(2.0, [10.0, 5.0])).dashedLineStroke.dash == [10.0, 5.0]
      && !v.DashedLine(false).showDashedLine
      && v.DashedLine(false).Body().lineLayer.None?
  {
  }
}
