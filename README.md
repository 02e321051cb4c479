# ArcLib corner shapes, in Dafny

ArcLib gives Android views corners that can be flat, concave or convex. This model covers five parts of it:

- **`com.stelladk.arclib.ArcShape` (module `Shape`).** It turns four corner specifications into a closed `Path`:
  - `calcMargin` decides how much room convex ("OUTER") corners claim on an edge;
  - `factorizeSize` turns the view size into an adjusted rectangle, its integer centre and per-corner radii;
  - `draw` walks the corners top-left, bottom-left, bottom-right, top-right, starting and ending at the middle of the top edge.
- **The earlier `com.stella.arclib.ArcShape` (module `LegacyShape`).** Same path skeleton, but convex corners shrink the shape to a centred square.
- **`ArcLayout` (module `Layout`) and `ArcButton` (module `Button`).** Both widgets:
  - clamp the arc types and axes given to their setters;
  - read attribute defaults in `init`;
  - cache a mask that `redraw` and `onSizeChanged` drop;
  - lazily rebuild that mask in `draw`;
  - draw content, shadow, mask, composite and stroke in a fixed order.
- **Module `Widget`.** What the two widgets share: the clamps, the defaults, the mask, the paint and the drawing operations.
- **Module `Geometry`.** Points, rectangles, the recorded form of an `android.graphics.Path`, and Java's truncating `int` division and `(int)` cast.

How the model represents things:

- **The path.** A `Path` records its calls as a sequence of segments. Every arc the shapes draw is a quarter of an axis-aligned ellipse starting at a multiple of 90 degrees. So its start and end are exact edge midpoints of its oval (`OvalPoint`). Without `forceMoveTo`, `Path.arcTo` first adds a line from the current point to the arc's start. The vertex list (`Trace`) follows that rule. Like `Path.arcTo`, it gives an arc whose oval has negative width or height (a negative radius) no vertices at all, not even the line to its start.
- **Model against code.** Each `Draw`/`FactorizeSize` method builds or records the path step by step, as the Java does. Its postcondition ties the result to a function of the inputs (`Outline`, `Factorize`). The properties are proved about those functions.
- **The widgets.** They are classes whose methods change only the fields their `modifies` clauses name. A draw returns the drawing operations it issues as a list of `RenderOp` values.

Rules the code follows that the model keeps:

- Arc types and axes read from XML attributes are stored unclamped. A corner with a value outside the constants draws nothing (the blocks' last postcondition).
- Only the setters clamp.
- The radius, stroke and shadow setters do not invalidate the cached mask. A changed corner reaches `ArcLayout`'s drawing only after `redraw` or a size change (`Layout.SetterNeedsRedraw`).
- `ArcButton` rebuilds its stroke shape on every draw. So after a setter, its stroke follows the new corners while its mask does not (`Button.StrokeFollowsSetterMaskDoesNot`).
- The paint each widget keeps is left in stroke style with the stroke colour by the stroke pass. The next draw composites with that paint (`Composite(old(paint))` in `Draw`).
- A convex top-left corner on X_AXIS first draws its lead-in line to twice the radius left of the rectangle. The arc then starts one radius left of it, so the pen doubles back along the top edge line (`Shape.ConvexLeadInOvershoots`). The other convex corners that lead in with a line behave the same way.

Only `redraw` and `onSizeChanged` clear the cached mask; every setter leaves it in place, so a changed parameter reaches the mask only at the next `redraw` or size change.

## Model

| member | source | states |
|---|---|---|
| Geometry.JavaDiv | ArcLib/src/main/java/com/stelladk/arclib/ArcShape.java:181-182 | Java `int` division: the quotient is truncated toward zero, so the remainder has the dividend's sign and is smaller than the divisor |
| Geometry.Truncate | ArcLib/src/main/java/com/stelladk/arclib/ArcShape.java:214-217 | the `(int)` cast of a float truncates toward zero, to within one of the value |
| Geometry.MaxReal | ArcLib/src/main/java/com/stelladk/arclib/ArcShape.java:214 | `Math.max` is one of its arguments and at least both |
| Geometry.MinInt | ArcLib/src/main/java/com/stella/arclib/ArcShape.java:97 | `Math.min` is one of its arguments and at most both |
| Geometry.OvalPoint | ArcLib/src/main/java/com/stelladk/arclib/ArcShape.java:100 | the point of an arc at a multiple of 90 degrees lies on the oval's ellipse: at 0 on the right edge, 90 the bottom, 180 the left, 270 the top |
| Geometry.TraceAppend | ArcLib/src/main/java/com/stelladk/arclib/ArcShape.java:93-159 | the vertices of a path built in two parts are those of the first part followed by those of the second |
| Geometry.ExtendContour | ArcLib/src/main/java/com/stelladk/arclib/ArcShape.java:93-157 | a contour opened by moveTo stays open and well formed when lines and quarter arcs are appended |
| Geometry.CloseContour | ArcLib/src/main/java/com/stelladk/arclib/ArcShape.java:159 | close turns an open contour into a single closed contour of quarter arcs and lines |
| Geometry.Path.constructor | ArcLib/src/main/java/com/stelladk/arclib/ArcShape.java:89 | a new path is empty and has the default winding fill type |
| Geometry.Path.SetFillType | ArcLib/src/main/java/com/stelladk/arclib/ArcShape.java:90 | only the fill type changes, to the one given |
| Geometry.Path.MoveTo | ArcLib/src/main/java/com/stelladk/arclib/ArcShape.java:93 | appends exactly one moveTo segment to the path |
| Geometry.Path.LineTo | ArcLib/src/main/java/com/stelladk/arclib/ArcShape.java:97-98 | appends exactly one lineTo segment to the path |
| Geometry.Path.ArcTo | ArcLib/src/main/java/com/stelladk/arclib/ArcShape.java:100 | records exactly one arcTo call with the oval, start and sweep given; what it draws, nothing for an oval of negative size, is given by Trace |
| Geometry.Path.Close | ArcLib/src/main/java/com/stelladk/arclib/ArcShape.java:159 | appends exactly one close segment |
| Shape.CalcMargin | ArcLib/src/main/java/com/stelladk/arclib/ArcShape.java:211-222 | 0 unless a corner is OUTER on the requested axis. One claiming corner gives its radius truncated, or dim/4 when the radius is exactly -1. Two claiming corners give the larger of the truncated radii, or dim/4 when that is -1, for any radii; so -1 paired with a set radius of at least 0 yields that radius truncated, and two unset radii give dim/4 |
| Shape.CalcMarginSymmetric | ArcLib/src/main/java/com/stelladk/arclib/ArcShape.java:211-222 | swapping the two corners that share an edge leaves the margin unchanged |
| Shape.Factorize | ArcLib/src/main/java/com/stelladk/arclib/ArcShape.java:164-208 | defines factorizeSize as a function of the corner parameters and the view size; its properties are stated by FactorizeFrame |
| Shape.TruncatedMaximumMeetsDefault | ArcLib/src/main/java/com/stelladk/arclib/ArcShape.java:213-219 | two radii of -1.5 both claiming an edge fall into the dim/4 default, because their truncated maximum is -1; a single -1.5 is truncated to -1 as it is; an unset radius paired with -5 also gives dim/4 |
| Shape.FactorizeFrame | ArcLib/src/main/java/com/stelladk/arclib/ArcShape.java:164-208 | left/right come from the X_AXIS margins of the left and right pairs, top/bottom from the Y_AXIS margins of the top and bottom pairs, as CalcMargin states them. With no OUTER corner the rectangle is the whole view. The centre is the integer midpoint, within half a pixel. Default radii are 3/8 of width and height, and each corner takes its own radius on both axes unless it is -1 |
| Shape.TopLeftBlock | ArcLib/src/main/java/com/stelladk/arclib/ArcShape.java:95-109 | flat: two lines, to (left, top) then (left, yCenter). Concave: one -90 quarter of the oval (left, top, left + 2rx, top + 2ry) tucked into the corner, from radius-right of the corner to radius-below it. Convex on X: a lead-in to (left - 2rx, top) then a +90 quarter of the oval (left - 2rx, top, left, top + 2ry) left of the left edge. Convex on Y: a +90 quarter of the oval (left, top - 2ry, left + 2rx, top) above the top edge then a line to (left, yCenter). Anything else draws nothing |
| Shape.BottomLeftBlock | ArcLib/src/main/java/com/stelladk/arclib/ArcShape.java:111-125 | the same four cases for the bottom-left corner, the concave oval being (left, bottom - 2ry, left + 2rx, bottom), ending at (xCenter, bottom) after a line |
| Shape.BottomRightBlock | ArcLib/src/main/java/com/stelladk/arclib/ArcShape.java:127-141 | the same four cases for the bottom-right corner, the concave oval being (right - 2rx, bottom - 2ry, right, bottom), ending at (right, yCenter) after a line |
| Shape.TopRightBlock | ArcLib/src/main/java/com/stelladk/arclib/ArcShape.java:143-157 | the same four cases for the top-right corner, the concave oval being (right - 2rx, top, right, top + 2ry), ending at (xCenter, top) after a line |
| Shape.OutlineOf | ArcLib/src/main/java/com/stelladk/arclib/ArcShape.java:85-159 | the path is one closed contour of lines and quarter arcs that starts with moveTo(xCenter, top) |
| Shape.OutlineTrace | ArcLib/src/main/java/com/stelladk/arclib/ArcShape.java:93-159 | drawing the whole outline, the pen visits the middle of the top edge, then the vertices of the top-left, bottom-left, bottom-right and top-right corners in that order |
| Shape.Outline | ArcLib/src/main/java/com/stelladk/arclib/ArcShape.java:85-159 | defines the path draw builds on a canvas of the given size; its properties are stated by OutlineOf, OutlineTrace, AllFlatIsRectangle and the scenario lemmas |
| Shape.AllFlatIsRectangle | ArcLib/src/main/java/com/stelladk/arclib/ArcShape.java:85-159 | with all corners NONE the path is exactly moveTo(xc, 0), then lines to (0,0), (0,yc), (0,h), (xc,h), (w,h), (w,yc), (w,0), (xc,0), then close |
| Shape.OutlineReturnsToStart | ArcLib/src/main/java/com/stelladk/arclib/ArcShape.java:143-159 | when the top-right corner is flat or convex on X, the segment before close lands on the starting point |
| Shape.ConvexLeadInOvershoots | ArcLib/src/main/java/com/stelladk/arclib/ArcShape.java:101-104 | a convex top-left corner on X with non-negative radii visits (left - 2rx, top), then (left - rx, top), then (left, top + ry); with a negative radius the arc is dropped and only the lead-in point (left - 2rx, top) is visited |
| Shape.ConvexTopLeftScenario | ArcLib/src/main/java/com/stelladk/arclib/ArcShape.java:164-182 | a 100x100 view with a radius-20 convex top-left corner on X starts at (60, 0), leads in to (-20, 0) and returns to (60, 0) |
| Shape.ConcaveScenario | ArcLib/src/main/java/com/stelladk/arclib/ArcShape.java:99-148 | a 200x200 view with four concave corners of radius 40 draws four quarter arcs, each from 40 px along one edge to 40 px along the next |
| Shape.ArcShape.WithArcs | ArcLib/src/main/java/com/stelladk/arclib/ArcShape.java:52-55 | arc types only: X_AXIS at top-left and bottom-right, Y_AXIS at the others, every radius -1 |
| Shape.ArcShape.WithAxes | ArcLib/src/main/java/com/stelladk/arclib/ArcShape.java:57-61 | arc types and axes, every radius -1 |
| Shape.ArcShape.constructor | ArcLib/src/main/java/com/stelladk/arclib/ArcShape.java:63-76 | the twelve corner parameters are stored as given |
| Shape.ArcShape.FactorizeSize | ArcLib/src/main/java/com/stelladk/arclib/ArcShape.java:164-208 | the frame fields become exactly Factorize of the parameters and the view size |
| Shape.ArcShape.Draw | ArcLib/src/main/java/com/stelladk/arclib/ArcShape.java:85-162 | returns a fresh even-odd path whose segments are Outline of the parameters at the canvas size, and leaves the frame sized to that canvas |
| Shape.ArcShape.DrawTopLeft | ArcLib/src/main/java/com/stelladk/arclib/ArcShape.java:95-109 | appends exactly TopLeftBlock to the path |
| Shape.ArcShape.DrawBottomLeft | ArcLib/src/main/java/com/stelladk/arclib/ArcShape.java:111-125 | appends exactly BottomLeftBlock to the path |
| Shape.ArcShape.DrawBottomRight | ArcLib/src/main/java/com/stelladk/arclib/ArcShape.java:127-141 | appends exactly BottomRightBlock to the path |
| Shape.ArcShape.DrawTopRight | ArcLib/src/main/java/com/stelladk/arclib/ArcShape.java:143-157 | appends exactly TopRightBlock to the path |
| LegacyShape.AllOuterIsCentredSquare | ArcLib/src/main/java/com/stella/arclib/ArcShape.java:93-114 | with four convex corners the rectangle is a square inside the view, centred on its integer midpoint, about half the shorter side: min(w,h) - 2*side is between 0 and 3 |
| LegacyShape.NoOuterIsCanvas | ArcLib/src/main/java/com/stella/arclib/ArcShape.java:104-110 | with no convex corner every edge is reset to the view's own, so the rectangle is the whole view |
| LegacyShape.EdgesReset | ArcLib/src/main/java/com/stella/arclib/ArcShape.java:97-107 | for every combination of corners: a non-convex top-left, top-right, bottom-left or bottom-right corner resets the left, top, bottom or right edge to 0, 0, h or w; a convex one keeps that edge of the centred square, half the side from the view centre |
| LegacyShape.EdgeFollowsOwnCorner | ArcLib/src/main/java/com/stella/arclib/ArcShape.java:104-107 | each edge depends only on the corner that decides it: shapes agreeing on that corner agree on that edge, whatever their other corners |
| LegacyShape.Side | ArcLib/src/main/java/com/stella/arclib/ArcShape.java:97 | for a non-negative view size, twice the side is at most the shorter side and less than two below it |
| LegacyShape.Factorize | ArcLib/src/main/java/com/stella/arclib/ArcShape.java:93-114 | defines factorizeSize as a function of the arc types and the view size; its properties are stated by AllOuterIsCentredSquare, NoOuterIsCanvas, EdgesReset, EdgeFollowsOwnCorner and CentreIsMidpoint |
| LegacyShape.CentreIsMidpoint | ArcLib/src/main/java/com/stella/arclib/ArcShape.java:109-113 | width and height span the rectangle and the centre is its integer midpoint |
| LegacyShape.TopLeftBlock | ArcLib/src/main/java/com/stella/arclib/ArcShape.java:44-53 | flat: lines to (left, top) and (left, yCenter). Concave: a -90 quarter of the oval (left, top, xCenter, yCenter). Convex: a lead-in to (left - width/2, top), then a +90 quarter left of the rectangle. Anything else draws nothing |
| LegacyShape.BottomLeftBlock | ArcLib/src/main/java/com/stella/arclib/ArcShape.java:55-64 | the same three cases for the bottom-left corner; a convex one leads in to bottom + height/2 |
| LegacyShape.BottomRightBlock | ArcLib/src/main/java/com/stella/arclib/ArcShape.java:66-75 | the same three cases for the bottom-right corner; a convex one leads in to right + width/2 |
| LegacyShape.TopRightBlock | ArcLib/src/main/java/com/stella/arclib/ArcShape.java:77-86 | the same three cases for the top-right corner; a convex one leads in to top - height/2 |
| LegacyShape.OutlineOf | ArcLib/src/main/java/com/stella/arclib/ArcShape.java:34-91 | the path is one closed contour of lines and quarter arcs that starts with moveTo(xCenter, top) |
| LegacyShape.Outline | ArcLib/src/main/java/com/stella/arclib/ArcShape.java:34-91 | defines the path draw builds on a canvas of the given size; its properties are stated by OutlineOf and FlatAgreesWithSuccessor |
| LegacyShape.FlatAgreesWithSuccessor | ArcLib/src/main/java/com/stella/arclib/ArcShape.java:34-114 | with four flat corners the earlier shape draws exactly the path of its successor, whatever axes and radii the successor is given |
| LegacyShape.AllConvexScenario | ArcLib/src/main/java/com/stella/arclib/ArcShape.java:93-114 | a 200x100 view with four convex corners gets the square (75,25)-(125,75) centred at (100,50), and its top-left lead-in reaches x = 50 |
| LegacyShape.ArcShape.constructor | ArcLib/src/main/java/com/stella/arclib/ArcShape.java:25-30 | the four arc types are stored as given |
| LegacyShape.ArcShape.FactorizeSize | ArcLib/src/main/java/com/stella/arclib/ArcShape.java:93-114 | the frame fields become exactly Factorize of the arc types and the view size |
| LegacyShape.ArcShape.Draw | ArcLib/src/main/java/com/stella/arclib/ArcShape.java:34-91 | returns a fresh even-odd path whose segments are Outline of the arc types at the canvas size |
| LegacyShape.ArcShape.DrawTopLeft | ArcLib/src/main/java/com/stella/arclib/ArcShape.java:44-53 | appends exactly TopLeftBlock to the path |
| LegacyShape.ArcShape.DrawBottomLeft | ArcLib/src/main/java/com/stella/arclib/ArcShape.java:55-64 | appends exactly BottomLeftBlock to the path |
| LegacyShape.ArcShape.DrawBottomRight | ArcLib/src/main/java/com/stella/arclib/ArcShape.java:66-75 | appends exactly BottomRightBlock to the path |
| LegacyShape.ArcShape.DrawTopRight | ArcLib/src/main/java/com/stella/arclib/ArcShape.java:77-86 | appends exactly TopRightBlock to the path |
| Widget.ClampArc | ArcLib/src/main/java/com/stelladk/arclib/ArcLayout.java:128-132 | the stored arc type is always INNER, NONE or OUTER: NONE exactly for 0, INNER exactly for negatives, OUTER exactly for positives, and a valid value is kept |
| Widget.ClampAxis | ArcLib/src/main/java/com/stelladk/arclib/ArcLayout.java:168-171 | the stored axis is always X_AXIS or Y_AXIS: X_AXIS exactly for values of at most 0, and a valid axis is kept |
| Widget.CornerFallsBack | ArcLib/src/main/java/com/stelladk/arclib/ArcLayout.java:84-101 | for all four corners and all three attributes: the corner's own attribute when given, else the global one, else NONE, Y_AXIS or -1 |
| Widget.CornersFrom | ArcLib/src/main/java/com/stelladk/arclib/ArcLayout.java:84-101 | defines the four corners init reads, unclamped; its properties are stated by CornerFallsBack |
| Widget.MaskOf | ArcLib/src/main/java/com/stelladk/arclib/ArcLayout.java:343-364 | defines the mask createMask builds for a shape at a size; its properties are stated by MaskClearsClosedOutline |
| Widget.MaskClearsClosedOutline | ArcLib/src/main/java/com/stelladk/arclib/ArcLayout.java:343-364 | the mask has the size it is built for, and what it clears is one closed contour starting at the middle of the shape's top edge |
| Widget.DrawPass | ArcLib/src/main/java/com/stelladk/arclib/ArcLayout.java:310-340 | defines the operation list of one draw; its order is stated by DrawPassOrder |
| Widget.DrawPassOrder | ArcLib/src/main/java/com/stelladk/arclib/ArcLayout.java:310-340 | content first, then the optional shadow, the mask cleared immediately before the composite, and the optional stroke last |
| Layout.ArcLayout.constructor | ArcLib/src/main/java/com/stelladk/arclib/ArcLayout.java:80-122 | every field is its attribute or its default (NONE, Y_AXIS, -1, no stroke, white, 10, no shadow, gray, 0), with corners falling back to the global values; no mask is cached, and a fresh shape of those corners exists |
| Layout.ArcLayout.SetTopLeftArcType | ArcLib/src/main/java/com/stelladk/arclib/ArcLayout.java:128-132 | only the top-left arc type changes, to ClampArc of the argument |
| Layout.ArcLayout.SetTopRightArc | ArcLib/src/main/java/com/stelladk/arclib/ArcLayout.java:138-142 | only the top-right arc type changes, to ClampArc of the argument |
| Layout.ArcLayout.SetBottomLeftArc | ArcLib/src/main/java/com/stelladk/arclib/ArcLayout.java:148-152 | only the bottom-left arc type changes, to ClampArc of the argument |
| Layout.ArcLayout.SetBottomRightArc | ArcLib/src/main/java/com/stelladk/arclib/ArcLayout.java:158-162 | only the bottom-right arc type changes, to ClampArc of the argument |
| Layout.ArcLayout.SetTopLeftOuterAxis | ArcLib/src/main/java/com/stelladk/arclib/ArcLayout.java:168-171 | only the top-left axis changes, to ClampAxis of the argument |
| Layout.ArcLayout.SetTopRightOuterAxis | ArcLib/src/main/java/com/stelladk/arclib/ArcLayout.java:177-180 | only the top-right axis changes, to ClampAxis of the argument |
| Layout.ArcLayout.SetBottomLeftOuterAxis | ArcLib/src/main/java/com/stelladk/arclib/ArcLayout.java:186-189 | only the bottom-left axis changes, to ClampAxis of the argument |
| Layout.ArcLayout.SetBottomRightOuterAxis | ArcLib/src/main/java/com/stelladk/arclib/ArcLayout.java:195-198 | only the bottom-right axis changes, to ClampAxis of the argument |
| Layout.ArcLayout.SetTopLeftRadius | ArcLib/src/main/java/com/stelladk/arclib/ArcLayout.java:204-206 | only the top-left radius changes, to the argument; the mask stays |
| Layout.ArcLayout.SetTopRightRadius | ArcLib/src/main/java/com/stelladk/arclib/ArcLayout.java:212-214 | only the top-right radius changes, to the argument; the mask stays |
| Layout.ArcLayout.SetBottomLeftRadius | ArcLib/src/main/java/com/stelladk/arclib/ArcLayout.java:220-222 | only the bottom-left radius changes, to the argument; the mask stays |
| Layout.ArcLayout.SetBottomRightRadius | ArcLib/src/main/java/com/stelladk/arclib/ArcLayout.java:228-230 | only the bottom-right radius changes, to the argument; the mask stays |
| Layout.ArcLayout.SetStroke | ArcLib/src/main/java/com/stelladk/arclib/ArcLayout.java:236-238 | only the stroke flag changes, to the argument |
| Layout.ArcLayout.SetStrokeColor | ArcLib/src/main/java/com/stelladk/arclib/ArcLayout.java:244-246 | only the stroke colour changes, to the argument |
| Layout.ArcLayout.SetStrokeWidth | ArcLib/src/main/java/com/stelladk/arclib/ArcLayout.java:252-254 | only the stroke width changes, to the argument |
| Layout.ArcLayout.SetShadow | ArcLib/src/main/java/com/stelladk/arclib/ArcLayout.java:260-262 | only the shadow flag changes, to the argument |
| Layout.ArcLayout.SetElevation | ArcLib/src/main/java/com/stelladk/arclib/ArcLayout.java:268-270 | only the elevation changes, to the argument |
| Layout.ArcLayout.SetShadowColor | ArcLib/src/main/java/com/stelladk/arclib/ArcLayout.java:276-278 | only the shadow colour changes, to the argument |
| Layout.ArcLayout.Redraw | ArcLib/src/main/java/com/stelladk/arclib/ArcLayout.java:284-287 | the cached mask is dropped, and nothing else changes |
| Layout.ArcLayout.OnSizeChanged | ArcLib/src/main/java/com/stelladk/arclib/ArcLayout.java:293-302 | the cached mask is dropped, and the layout size becomes the new size less the horizontal and vertical padding |
| Layout.ArcLayout.CreateShape | ArcLib/src/main/java/com/stelladk/arclib/ArcLayout.java:366-371 | the shape is replaced by a fresh one of the current corner parameters |
| Layout.ArcLayout.CreateMask | ArcLib/src/main/java/com/stelladk/arclib/ArcLayout.java:343-364 | the mask of the current shape at the given size; drawing it leaves the shape sized to the mask |
| Layout.ArcLayout.CacheMask | ArcLib/src/main/java/com/stelladk/arclib/ArcLayout.java:315-318 | a cached mask and its shape are reused untouched; without one, a fresh shape of the current corners and its mask at the layout size are built; either way the cache invariant holds |
| Layout.ArcLayout.ShadowPass | ArcLib/src/main/java/com/stelladk/arclib/ArcLayout.java:320-325 | when the shadow is on, the cached shape's outline at the canvas size is drawn with a radius-20 shadow layer, offset (0, elevation), in the shadow colour |
| Layout.ArcLayout.StrokePass | ArcLib/src/main/java/com/stelladk/arclib/ArcLayout.java:331-338 | when the stroke is on, the paint switches to the stroke paint and stays so, and the cached shape's outline at the canvas size is stroked with it |
| Layout.ArcLayout.Draw | ArcLib/src/main/java/com/stelladk/arclib/ArcLayout.java:310-340 | shape and mask are rebuilt from the current parameters only when no mask is cached. The operations are content, shadow, mask clear, composite with the previous paint, and stroke, with shadow and stroke tracing the same cached shape at the canvas size. The cache invariant is kept |
| Layout.DrawWithCache | ArcLib/src/main/java/com/stelladk/arclib/ArcLayout.java:310-318 | a draw while a mask is cached keeps that mask and the shape, whatever the corners are by now, and leaves the corners unchanged |
| Layout.DrawAfterRedraw | ArcLib/src/main/java/com/stelladk/arclib/ArcLayout.java:284-318 | redraw then draw rebuilds the mask from the current corners at the layout size |
| Layout.SetterNeedsRedraw | ArcLib/src/main/java/com/stelladk/arclib/ArcLayout.java:128-318 | after a setter, the next draw still uses the old mask; after redraw, the draw uses a mask of the changed corners |
| Button.ArcButton.constructor | ArcLib/src/main/java/com/stelladk/arclib/ArcButton.java:51-92 | every field is its attribute or its default (NONE, Y_AXIS, -1, no stroke, white, 10), with corners falling back to the global values; no mask is cached |
| Button.ArcButton.SetTopLeftArcType | ArcLib/src/main/java/com/stelladk/arclib/ArcButton.java:98-102 | only the top-left arc type changes, to ClampArc of the argument |
| Button.ArcButton.SetTopRightArc | ArcLib/src/main/java/com/stelladk/arclib/ArcButton.java:108-112 | only the top-right arc type changes, to ClampArc of the argument |
| Button.ArcButton.SetBottomLeftArc | ArcLib/src/main/java/com/stelladk/arclib/ArcButton.java:118-122 | only the bottom-left arc type changes, to ClampArc of the argument |
| Button.ArcButton.SetBottomRightArc | ArcLib/src/main/java/com/stelladk/arclib/ArcButton.java:128-132 | only the bottom-right arc type changes, to ClampArc of the argument |
| Button.ArcButton.SetTopLeftOuterAxis | ArcLib/src/main/java/com/stelladk/arclib/ArcButton.java:138-141 | only the top-left axis changes, to ClampAxis of the argument |
| Button.ArcButton.SetTopRightOuterAxis | ArcLib/src/main/java/com/stelladk/arclib/ArcButton.java:147-150 | only the top-right axis changes, to ClampAxis of the argument |
| Button.ArcButton.SetBottomLeftOuterAxis | ArcLib/src/main/java/com/stelladk/arclib/ArcButton.java:156-159 | only the bottom-left axis changes, to ClampAxis of the argument |
| Button.ArcButton.SetBottomRightOuterAxis | ArcLib/src/main/java/com/stelladk/arclib/ArcButton.java:165-168 | only the bottom-right axis changes, to ClampAxis of the argument |
| Button.ArcButton.SetTopLeftRadius | ArcLib/src/main/java/com/stelladk/arclib/ArcButton.java:174-176 | only the top-left radius changes, to the argument; the mask stays |
| Button.ArcButton.SetTopRightRadius | ArcLib/src/main/java/com/stelladk/arclib/ArcButton.java:182-184 | only the top-right radius changes, to the argument; the mask stays |
| Button.ArcButton.SetBottomLeftRadius | ArcLib/src/main/java/com/stelladk/arclib/ArcButton.java:190-192 | only the bottom-left radius changes, to the argument; the mask stays |
| Button.ArcButton.SetBottomRightRadius | ArcLib/src/main/java/com/stelladk/arclib/ArcButton.java:198-200 | only the bottom-right radius changes, to the argument; the mask stays |
| Button.ArcButton.SetStroke | ArcLib/src/main/java/com/stelladk/arclib/ArcButton.java:206-208 | only the stroke flag changes, to the argument |
| Button.ArcButton.SetStrokeColor | ArcLib/src/main/java/com/stelladk/arclib/ArcButton.java:214-216 | only the stroke colour changes, to the argument |
| Button.ArcButton.SetStrokeWidth | ArcLib/src/main/java/com/stelladk/arclib/ArcButton.java:222-224 | only the stroke width changes, to the argument |
| Button.ArcButton.Redraw | ArcLib/src/main/java/com/stelladk/arclib/ArcButton.java:230-233 | the cached mask is dropped, and nothing else changes |
| Button.ArcButton.OnSizeChanged | ArcLib/src/main/java/com/stelladk/arclib/ArcButton.java:239-248 | the cached mask is dropped, and the layout size becomes the new size less the padding |
| Button.ArcButton.CreateMask | ArcLib/src/main/java/com/stelladk/arclib/ArcButton.java:285-305 | the mask of a new shape of the current corner parameters at the given size |
| Button.ArcButton.CacheMask | ArcLib/src/main/java/com/stelladk/arclib/ArcButton.java:263-265 | a cached mask is kept; without one, the mask of the current corners at the layout size is built |
| Button.ArcButton.StrokePass | ArcLib/src/main/java/com/stelladk/arclib/ArcButton.java:270-280 | when the stroke is on, the paint switches to the stroke paint and stays so, and a new shape of the current corners at the canvas size is stroked with it |
| Button.ArcButton.Draw | ArcLib/src/main/java/com/stelladk/arclib/ArcButton.java:256-282 | the layout size becomes the view size, replacing the padded size, and the mask is built only when none is cached. The operations are content, mask clear, composite with the previous paint, and a stroke of a new shape of the current corners at the canvas size |
| Button.StrokeFollowsSetterMaskDoesNot | ArcLib/src/main/java/com/stelladk/arclib/ArcButton.java:98-282 | after a setter, the next draw strokes the changed corners while the cached mask still clears the old ones |

## Left out

- Pixels: bitmaps, `Canvas.drawPath`, Porter-Duff CLEAR compositing, ALPHA_8 masks, anti-aliasing and shadow blur belong to the Android rasterizer. A mask is kept only as its size and the outline it clears, and a draw as the list of drawing operations it issues.
- `super.draw` of the widget's content is an opaque `DrawContent` operation of the offscreen size.
- `invalidate()`, `setWillNotDraw`, `super.onSizeChanged` and the widgets' view constructors are view plumbing the model does not represent. `getWidth`/`getHeight`, the padding getters and the canvas size are parameters.
- Attribute resolution: `TypedArray` lookups are `Option` values with their defaults. `ArcButton.getBackgroundAttr` and `setBackgroundDrawable` (drawable and resource loading) are not modelled.
- Geometry.Path.ArcTo: records every arcTo call, also one on an oval of negative width or height, which Android's Path ignores; Trace gives such a call no vertices, so the recorded outline and what is drawn differ only there.
- Layout.ArcLayout.Draw: `Bitmap.createBitmap` throws `IllegalArgumentException` for a width or height of 0 or less (the offscreen bitmap and the mask). That happens when the padding is at least the view size, or on a draw before the first size change. The model does not represent the exception: it returns the operation list, with a `DrawContent` and a mask of that size.
- Layout.ArcLayout.CreateMask: the same exception for a mask of non-positive size is not modelled.
- Button.ArcButton.Draw: the same exception for a view of non-positive size is not modelled.
- Button.ArcButton.CreateMask: the same exception for a mask of non-positive size is not modelled.
- Floating point: radii, stroke widths and elevations are `real`. Float rounding and NaN are not modelled; the only exact test the code makes is `radius == -1`.
- Shape.CalcMargin: does not model 32-bit `int` overflow of margins, sizes and coordinates. Overflow would need views of over two billion pixels.
- Shape.FactorizeFrame: `width * 3` is computed with unbounded integers, so its 32-bit overflow is not modelled.
- LegacyShape.AllOuterIsCentredSquare: stated for non-negative view sizes only, because the centring bound depends on truncating division of non-negative values.
- Shape.ArcShape.FactorizeSize: the eighteen derived fields factorizeSize assigns one by one are held together as one `Frame` value, assigned once. The order of the individual assignments is not modelled.
- LegacyShape.ArcShape.FactorizeSize: the eight bounds fields are held together as one `Frame` value in the same way.
- Layout.ArcLayout.constructor: each corner's arc type, axis and radius live in one `Shape.Corner` field instead of three separate fields.
- Button.ArcButton.constructor: each corner's arc type, axis and radius live in one `Shape.Corner` field in the same way.
- `createShape` in `ArcLayout.java` passes three more arguments (shadow radius, shadow offset and elevation) to a fifteen-argument `ArcShape` constructor that `ArcShape.java` does not declare. The model builds the shape with the twelve corner parameters, the most the declared constructors take.
- The shape's area and its exact centre pixel are not modelled. Both depend on the rasterizer's filling of even-odd paths.
- The demo activity, `ArcImageView`, `ArcTest` and the earlier `ArcLayout` are not part of this model.
