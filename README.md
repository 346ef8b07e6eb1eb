# TicketShape in Dafny

This is a model of the TicketShape SwiftUI package. The package has three parts:

- `TicketShape` builds a ticket outline: a rounded rectangle with a semicircular notch cut into each side edge.
- `TicketDashedLine` builds a horizontal separator line that sits above the notches.
- `TicketShapeView` is a container that puts both shapes behind its content. It has four modifiers, each of which returns a copy with one field changed.

The model has four modules:

- `Geometry` (`geometry.dfy`) has points and CGRect-style rectangles. A rectangle's edge accessors standardise negative sizes, as `minX`, `maxX`, `minY`, `maxY` and `height` do. The module also has axis-aligned boxes and the reflection about a rectangle's vertical midline.
- `Paths` (`paths.dfy`) models a path as a sequence of drawing commands: move, line, quadratic curve and arc. For each command it defines the end point and the bounding points. It defines when a path is connected (one subpath, no implicit joining segment) and when it is closed. It also defines a path's extent, the smallest box around all its bounding points, which stands in for `Path.boundingRect`. Arcs have quarter-turn angles only. A clockwise arc sweeps through decreasing angles, which is the Core Graphics convention.
- `TicketShapes` (`ticket_shape.dfy`) has the two shapes as values with defaulted parameters. Each `path(in:)` is an imperative method that appends commands to a fresh path. Each method is proved to build the path given by a specification function: `Elements` for the line and `Outline` for the ticket. The lemmas then prove properties of those functions:
  - the order of the commands;
  - the outline is closed and connected;
  - the notch geometry;
  - the outline's mirror symmetry;
  - the outline's extent equals the rectangle exactly when the predicate `Fits` holds. `Fits` means the corners fit the rectangle and the notches fit the side edges.
- `TicketViews` (`ticket_view.dfy`) has the container as a record. Its `body` is modelled as the composition it builds: which outline, which fill, and, when shown, which separator line and with which stroke. The modifiers are functional updates of the record.

The outline does not stay inside every rectangle, not even with the defaults. In a rectangle narrower than the default corner radius of 16, the corner curves reach past the side edges (`DefaultOutlineOnNarrowRect`). `OutlineExtent` gives the exact condition under which the extent equals the rectangle. The package's own test checks one case, a 200 by 300 rectangle, and that case meets the condition (`DefaultOutlineOn200By300`).

## Model

| member | source | states |
|---|---|---|
| Geometry.Rect.MinX | Sources/TicketShape/TicketShape.swift:137 | The rectangle's left edge is the smaller of `x` and `x + width`. |
| Geometry.Rect.MaxX | Sources/TicketShape/TicketShape.swift:140 | The rectangle's right edge is the larger of `x` and `x + width`. |
| Geometry.Rect.MinY | Sources/TicketShape/TicketShape.swift:74 | The rectangle's top edge is the smaller of `y` and `y + height`. |
| Geometry.Rect.MaxY | Sources/TicketShape/TicketShape.swift:159 | The rectangle's bottom edge is the larger of `y` and `y + height`. |
| Geometry.Rect.Width | Sources/TicketShape/TicketShape.swift:137-140 | The standardised width is never negative, equals maxX − minX, and is ±width. |
| Geometry.Rect.Height | Sources/TicketShape/TicketShape.swift:134 | The standardised height is never negative, equals maxY − minY, and is ±height. |
| Geometry.Reflect | Sources/TicketShape/TicketShape.swift:137-195 | Reflecting a point about the vertical midline keeps y, and puts the point as far from minX as it was from maxX. |
| Geometry.ReflectInvolution | Sources/TicketShape/TicketShape.swift:137-195 | Reflecting twice gives the point back. |
| Paths.CirclePointOnCircle | Sources/TicketShape/TicketShape.swift:150-156 | The arc end points addArc computes (CirclePoint) lie on the arc's circle, on an axis through its centre. Angle 0 lies one radius towards +x, 90 towards +y (down), 180 towards −x and 270 towards −y. |
| Paths.SweptPoints | Sources/TicketShape/TicketShape.swift:150-156 | An arc passes Sweep + 1 quarter points. They run from the start-angle point to the end-angle point, each one quarter turn further in the arc's direction. |
| Paths.SweepEndsAtEndAngle | Sources/TicketShape/TicketShape.swift:150-156 | Turning from the start angle by the sweep, in the arc's direction, reaches the end angle modulo 360. |
| Paths.Points | Tests/TicketShapeTests/TicketShapeTests.swift:41-42 | A path has at least as many bounding points as commands. |
| Paths.PointsMembership | Tests/TicketShapeTests/TicketShapeTests.swift:41-42 | A point is a bounding point of the path exactly when it bounds one of the path's commands. |
| Paths.BoundsOf | Tests/TicketShapeTests/TicketShapeTests.swift:41-42 | The computed box contains every point, and each of its four edges is attained by some point. |
| Paths.Extent | Tests/TicketShapeTests/TicketShapeTests.swift:41-42 | The extent is None exactly for the empty path. Otherwise it encloses every bounding point and reaches all four of its own edges. |
| Paths.EmptyIffNoExtent | Tests/TicketShapeTests/TicketShapeTests.swift:40 | IsEmpty, the stand-in for Path.isEmpty, holds exactly when the path has no extent. |
| Paths.SameEdges | Tests/TicketShapeTests/TicketShapeTests.swift:41-42 | If one box encloses a path and reaches all four edges, every box that encloses the path has each edge on or outside the same edge. |
| Paths.ExtentIsTightest | Tests/TicketShapeTests/TicketShapeTests.swift:41-42 | Any box that encloses the path and is reached on all four edges is the extent. |
| Paths.EnclosesByElement | Tests/TicketShapeTests/TicketShapeTests.swift:41-42 | A box encloses a path exactly when it encloses each command's bounding points. |
| Paths.ElementPoint | Tests/TicketShapeTests/TicketShapeTests.swift:41-42 | A bounding point of one command is a bounding point of the path. |
| TicketShapes.TicketDashedLine.PathIn | Sources/TicketShape/TicketShape.swift:72-78 | path(in:) builds exactly a move to (minX, y) and a line to (maxX, y), with y = minY + height·yPosition − offset. |
| TicketShapes.DashedLineGeometry | Sources/TicketShape/TicketShape.swift:72-77 | For every rectangle, the line is one move and one line, connected. Its ends are on the left and right edges at that y. Its extent is the full width and has zero height. |
| TicketShapes.DashedLineOn200By300 | Tests/TicketShapeTests/TicketShapeTests.swift:47-70 | Defaults are yPosition 0.75 and offset 10. On a 200×300 rectangle the line lies at y = 215 and spans x from 0 to 200. |
| TicketShapes.DashedLineZeroOffset | Tests/TicketShapeTests/TicketShapeTests.swift:165-174 | With offset 0 on the same rectangle, the line lies at y = 225 and spans x from 0 to 200. |
| TicketShapes.TicketShape.PathIn | Sources/TicketShape/TicketShape.swift:130-198 | path(in:) builds exactly the thirteen commands of Outline: the start move, four edge lines, the lines to the notches, two notch arcs and four corner curves. |
| TicketShapes.OutlineCommands | Sources/TicketShape/TicketShape.swift:130-198 | For every rectangle and every set of parameters, the outline is non-empty and follows the fixed move/line/quad/arc order. |
| TicketShapes.OutlineClosed | Sources/TicketShape/TicketShape.swift:137-195 | The last corner curve ends at the starting point, one corner radius in from the top-left corner. |
| TicketShapes.NotchSweeps | Sources/TicketShape/TicketShape.swift:146-186 | Each notch arc sweeps a half turn. The right notch passes its top point, the point r inside the right edge, and its bottom point. The left notch passes the same points mirrored, bottom to top. |
| TicketShapes.OutlineNotches | Sources/TicketShape/TicketShape.swift:133-186 | Both notches have radius cutoutRadius, sweep a half turn from −90° to 90° (right) and from 90° to −90° (left), and are centred on the side edges at minY + height·cutoutYPosition. The innermost point of each is cutoutRadius in from its edge, on the inner side of that edge for a non-negative radius. It lies inside the rectangle only when the radius is at most the width, as `Fits` requires. |
| TicketShapes.OutlineConnected | Sources/TicketShape/TicketShape.swift:147-189 | Every arc starts where the preceding line ends, so the outline is one subpath with no implicit joining segment. |
| TicketShapes.OutlineCorners | Sources/TicketShape/TicketShape.swift:139-195 | The four corner curves are controlled by the rectangle's four corners, clockwise from the top right. |
| TicketShapes.ReflectReversedInvolution | Sources/TicketShape/TicketShape.swift:137-195 | Mirroring a point sequence about the vertical midline and reversing it, done twice, gives the sequence back. This is the mirror relation OutlineMirrorCommands uses between the two halves. |
| TicketShapes.OutlineMirrorEndPoints | Sources/TicketShape/TicketShape.swift:137-195 | End point k of the outline mirrors end point 13 − k about the vertical midline. |
| TicketShapes.OutlineMirrorCommands | Sources/TicketShape/TicketShape.swift:137-195 | Command k mirrors command 14 − k: the same kind, mirrored control points and centres, the same radius, and the swept points mirrored in reverse order. |
| TicketShapes.FittingOutlineInside | Sources/TicketShape/TicketShape.swift:130-198 | When Fits holds, every bounding point of every command lies in the rectangle. |
| TicketShapes.RightHalfInside | Sources/TicketShape/TicketShape.swift:137-165 | When Fits holds, the top edge, the right side with its notch and the bottom-right corner stay inside the rectangle. |
| TicketShapes.LeftHalfInside | Sources/TicketShape/TicketShape.swift:167-195 | When Fits holds, the bottom edge, the left side with its notch and the top-left corner stay inside the rectangle. |
| TicketShapes.OutlineTouchesEdges | Sources/TicketShape/TicketShape.swift:139-174 | For any parameters, the outline reaches all four edges of the rectangle. |
| TicketShapes.InsideOutlineFits | Sources/TicketShape/TicketShape.swift:130-198 | An outline that stays inside the rectangle has corners and notches that fit. |
| TicketShapes.OutlineExtent | Sources/TicketShape/TicketShape.swift:130-198 | The outline's extent is the rectangle exactly when Fits holds. |
| TicketShapes.DefaultOutlineOn200By300 | Tests/TicketShapeTests/TicketShapeTests.swift:17-43 | Defaults are 0.75, 8 and 16. On a 200×300 rectangle the outline is non-empty and its extent is exactly 200 wide and 300 high. |
| TicketShapes.ZeroRadiiOutline | Tests/TicketShapeTests/TicketShapeTests.swift:143-149 | With zero radii, in every rectangle, the outline still has thirteen commands and its extent is the rectangle. |
| TicketShapes.ExtremeCutoutOutlines | Tests/TicketShapeTests/TicketShapeTests.swift:151-163 | With notches at position 0 or 1, in every rectangle, the outline still has thirteen commands, but the default notch pokes out of the rectangle. |
| TicketShapes.DefaultOutlineOnNarrowRect | Sources/TicketShape/TicketShape.swift:139-144 | With the defaults, in a 10-wide rectangle the extent is not the rectangle, because the corner radius is wider than the ticket. |
| TicketViews.TicketShapeView.TicketFill | Sources/TicketShape/TicketShape.swift:315-319 | ticketFill returns a copy with the new fill colour and every other field unchanged. |
| TicketViews.TicketShapeView.DashedLineColor | Sources/TicketShape/TicketShape.swift:325-329 | dashedLineColor returns a copy with the new line colour and every other field unchanged. |
| TicketViews.TicketShapeView.DashedLineStyle | Sources/TicketShape/TicketShape.swift:335-339 | dashedLineStyle returns a copy with the new stroke style and every other field unchanged. |
| TicketViews.TicketShapeView.DashedLine | Sources/TicketShape/TicketShape.swift:345-349 | dashedLine returns a copy with the new visibility and every other field unchanged. |
| TicketViews.ViewDefaults | Sources/TicketShape/TicketShape.swift:262-282 | The container's defaults are white fill, gray at 0.3 opacity, 0.75, 8, 16, offset 10, stroke width 0.5 with dash [4, 4], and the line shown. |
| TicketViews.TicketShapeView.Body | Sources/TicketShape/TicketShape.swift:284-305 | body builds the outline from the view's parameters and fills it with fillColor. A line layer is present exactly when showDashedLine holds. It has the notches' y position, the view's offset, stroke and colour, and the content on top. |
| TicketViews.BodyLineAlignedWithNotches | Sources/TicketShape/TicketShape.swift:284-305 | In every rectangle, the separator runs from the left notch centre to the right notch centre, raised by the offset. It is above the notch centres exactly when the offset is positive. |
| TicketViews.DefaultLineClearsNotches | Sources/TicketShape/TicketShape.swift:262-305 | With the defaults, in every rectangle, the separator lies above the top of both notches. |
| TicketViews.ModifiersCommute | Sources/TicketShape/TicketShape.swift:310-350 | Modifiers that set different fields commute. |
| TicketViews.ModifiersLastWins | Sources/TicketShape/TicketShape.swift:310-350 | When a modifier is applied twice, only its last value holds. |
| TicketViews.ModifiersKeepGeometry | Sources/TicketShape/TicketShape.swift:284-350 | Every modifier leaves the outline unchanged. ticketFill changes the body's fill and nothing else. dashedLineColor and dashedLineStyle keep whether a line layer is present, and its line. dashedLine(show) has a layer exactly when show holds, and the line it then shows is the one at the view's cutoutYPosition and offset. |
| TicketViews.ModifierExamples | Tests/TicketShapeTests/TicketShapeTests.swift:111-139 | Applied to the default view, ticketFill(blue), dashedLineColor(red), dashedLineStyle(2, [10, 5]) and dashedLine(false) set their fields to those values, and dashedLine(false) removes the line layer. A blue fill on a hidden-line view keeps the line hidden and changes only the fill. |

## Left out

- Rendering is not modelled: `fill`, `stroke`, `foregroundStyle`, `ZStack` and `background` are left out. `Body` records only which shapes are drawn with which parameters.
- The content view is an opaque value of a type parameter, and the `@ViewBuilder` closure is replaced by the value it produces.
- `CGFloat` is modelled as an exact real. Floating-point rounding, NaN and infinities are not modelled, and neither are CGRect's null and infinite rectangles.
- `Color` is modelled as a base name and an opacity. `StrokeStyle` is modelled only by line width and dash pattern; cap, join, miter limit and dash phase are left out.
- `Angle` is modelled as whole degrees that are multiples of 90, which is all the source uses. An arc whose sweep is a whole turn is counted as no sweep.
- `Path.addArc` adds an implicit line from the current point to the arc's start when the two differ. That line is not a command in the model; `OutlineConnected` shows the outline never needs one.
- `Path.boundingRect` is replaced by `Extent`, the box around end points, control points and arc quarter points, which is the control-point box. `Path.isEmpty` is replaced by `IsEmpty`, the command count being zero.
- Example.swift is not part of this model: it only shows the view in use.
- `closeSubpath` is never called by the source, so `Closed` means only that the last command ends where the outline began.
