/** The outline builder of com.stelladk.arclib.ArcShape: the margins that convex corners
    claim, the adjusted rectangle with its per-corner radii, and the closed path that
    visits the corners top-left, bottom-left, bottom-right, top-right. */
module Shape {
  import opened Geometry

  /** Arc types. */
  const OUTER := 1
  const NONE := 0
  const INNER := -1

  /** Axes along which an OUTER corner bulges. */
  const X_AXIS := 0
  const Y_AXIS := 1

  /** The radius that means "not set": the size of the view decides. */
  const UNSET: real := -1.0

  /** One corner as the shape stores it. Arc type and axis are kept as the raw ints the
      shape was built with; a value outside the constants above draws nothing. */
  datatype Corner = Corner(arc: int, outerAxis: int, radius: real)

  datatype Params = Params(topLeft: Corner, topRight: Corner, bottomLeft: Corner, bottomRight: Corner)

  datatype Radii = Radii(x: real, y: real)

  /** What factorizeSize computes: the adjusted rectangle, its size and integer centre,
      the default radii and each corner's X and Y radius. */
  datatype Frame = Frame(
    left: int, top: int, right: int, bottom: int,
    width: int, height: int,
    xCenter: int, yCenter: int,
    xRadius: real, yRadius: real,
    topLeft: Radii, topRight: Radii, bottomLeft: Radii, bottomRight: Radii)

  /** The corner is convex along `axis`, so it claims room on the edges across that axis. */
  predicate Claims(c: Corner, axis: int)
  {
    c.arc == OUTER && c.outerAxis == axis
  }

  predicate NoOuter(p: Params)
  {
    p.topLeft.arc != OUTER && p.topRight.arc != OUTER &&
    p.bottomLeft.arc != OUTER && p.bottomRight.arc != OUTER
  }

  /** The room the convex corners `c1` and `c2`, which share an edge, claim on that edge
      (calcMargin). `dim` is the view's size across the edge. */
  function CalcMargin(dim: int, axis: int, c1: Corner, c2: Corner): (margin: int)
    // nobody claims the edge
    ensures !Claims(c1, axis) && !Claims(c2, axis) ==> margin == 0
    // exactly one corner claims it: its radius truncated, or a quarter of the view when unset
    ensures Claims(c1, axis) != Claims(c2, axis) ==>
      var r := if Claims(c1, axis) then c1.radius else c2.radius;
      margin == if r == UNSET then JavaDiv(dim, 4) else Truncate(r)
    // both claim it: the larger truncated radius, or a quarter of the view when that is -1
    ensures Claims(c1, axis) && Claims(c2, axis) ==>
      var m := if Truncate(c1.radius) >= Truncate(c2.radius) then Truncate(c1.radius) else Truncate(c2.radius);
      margin == if m == -1 then JavaDiv(dim, 4) else m
    // for non-negative radii that is the larger radius truncated
    ensures Claims(c1, axis) && Claims(c2, axis) && 0.0 <= c1.radius && 0.0 <= c2.radius ==>
      margin as real <= MaxReal(c1.radius, c2.radius) < margin as real + 1.0 &&
      margin == if Truncate(c1.radius) >= Truncate(c2.radius) then Truncate(c1.radius) else Truncate(c2.radius)
    // an unset radius paired with a set one yields the set one
    ensures Claims(c1, axis) && Claims(c2, axis) && c1.radius == UNSET && 0.0 <= c2.radius ==>
      margin == Truncate(c2.radius)
    ensures Claims(c1, axis) && Claims(c2, axis) && 0.0 <= c1.radius && c2.radius == UNSET ==>
      margin == Truncate(c1.radius)
    // both unset: a quarter of the view
    ensures Claims(c1, axis) && Claims(c2, axis) && c1.radius == UNSET && c2.radius == UNSET ==>
      margin == JavaDiv(dim, 4)
  {
    if Claims(c1, axis) && Claims(c2, axis) then
      var maximum := Truncate(MaxReal(c1.radius, c2.radius));
      if maximum == -1 then JavaDiv(dim, 4) else maximum
    else if Claims(c1, axis) then
      if c1.radius == UNSET then JavaDiv(dim, 4) else Truncate(c1.radius)
    else if Claims(c2, axis) then
      if c2.radius == UNSET then JavaDiv(dim, 4) else Truncate(c2.radius)
    else
      0
  }

  /** width * 3 / 8F: the default radius, 3/8 of a side of the adjusted rectangle. */
  function DefaultRadius(side: int): real
  {
    (side * 3) as real / 8.0
  }

  /** The radii a corner is drawn with: its own radius on both axes, or the default radii
      when unset. */
  function CornerRadii(radius: real, xRadius: real, yRadius: real): Radii
  {
    if radius == UNSET then Radii(xRadius, yRadius) else Radii(radius, radius)
  }

  /** factorizeSize for a view of `viewWidth` by `viewHeight` pixels. */
  function Factorize(p: Params, viewWidth: int, viewHeight: int): Frame
  {
    var left := CalcMargin(viewWidth, X_AXIS, p.topLeft, p.bottomLeft);
    var top := CalcMargin(viewHeight, Y_AXIS, p.topLeft, p.topRight);
    var bottom := viewHeight - CalcMargin(viewHeight, Y_AXIS, p.bottomLeft, p.bottomRight);
    var right := viewWidth - CalcMargin(viewWidth, X_AXIS, p.topRight, p.bottomRight);
    var width := right - left;
    var height := bottom - top;
    var xRadius := DefaultRadius(width);
    var yRadius := DefaultRadius(height);
    Frame(left, top, right, bottom, width, height,
          left + JavaDiv(width, 2), top + JavaDiv(height, 2),
          xRadius, yRadius,
          CornerRadii(p.topLeft.radius, xRadius, yRadius),
          CornerRadii(p.topRight.radius, xRadius, yRadius),
          CornerRadii(p.bottomLeft.radius, xRadius, yRadius),
          CornerRadii(p.bottomRight.radius, xRadius, yRadius))
  }

  /** What factorizeSize promises about the frame. */
  lemma FactorizeFrame(p: Params, viewWidth: int, viewHeight: int, f: Frame)
    requires f == Factorize(p, viewWidth, viewHeight)
    // X_AXIS claims of the left and right pairs move the vertical edges in
    ensures f.left == CalcMargin(viewWidth, X_AXIS, p.topLeft, p.bottomLeft)
    ensures f.right == viewWidth - CalcMargin(viewWidth, X_AXIS, p.topRight, p.bottomRight)
    // Y_AXIS claims of the top and bottom pairs move the horizontal edges in
    ensures f.top == CalcMargin(viewHeight, Y_AXIS, p.topLeft, p.topRight)
    ensures f.bottom == viewHeight - CalcMargin(viewHeight, Y_AXIS, p.bottomLeft, p.bottomRight)
    // without convex corners the rectangle is the whole view
    ensures NoOuter(p) ==> f.left == 0 && f.top == 0 && f.right == viewWidth && f.bottom == viewHeight
    ensures f.width == f.right - f.left && f.height == f.bottom - f.top
    // the centre is the integer midpoint, truncated toward the left and top edges
    ensures f.width >= 0 ==> 0 <= f.width - 2 * (f.xCenter - f.left) <= 1
    ensures f.width < 0 ==> -1 <= f.width - 2 * (f.xCenter - f.left) <= 0
    ensures f.height >= 0 ==> 0 <= f.height - 2 * (f.yCenter - f.top) <= 1
    ensures f.height < 0 ==> -1 <= f.height - 2 * (f.yCenter - f.top) <= 0
    // the default radii are 3/8 of the adjusted rectangle
    ensures f.xRadius == DefaultRadius(f.width) && f.yRadius == DefaultRadius(f.height)
    // an unset radius takes the default radii, a set one is used on both axes
    ensures p.topLeft.radius == UNSET ==> f.topLeft == Radii(f.xRadius, f.yRadius)
    ensures p.topLeft.radius != UNSET ==> f.topLeft == Radii(p.topLeft.radius, p.topLeft.radius)
    ensures p.topRight.radius == UNSET ==> f.topRight == Radii(f.xRadius, f.yRadius)
    ensures p.topRight.radius != UNSET ==> f.topRight == Radii(p.topRight.radius, p.topRight.radius)
    ensures p.bottomLeft.radius == UNSET ==> f.bottomLeft == Radii(f.xRadius, f.yRadius)
    ensures p.bottomLeft.radius != UNSET ==> f.bottomLeft == Radii(p.bottomLeft.radius, p.bottomLeft.radius)
    ensures p.bottomRight.radius == UNSET ==> f.bottomRight == Radii(f.xRadius, f.yRadius)
    ensures p.bottomRight.radius != UNSET ==> f.bottomRight == Radii(p.bottomRight.radius, p.bottomRight.radius)
  {
  }

  /** The top-left corner, drawn from the top edge towards (left, yCenter). */
  function TopLeftBlock(f: Frame, c: Corner): (b: seq<Segment>)
    ensures Draws(b)
    // flat: the rectangle's corner, then the middle of the left edge
    ensures c.arc == NONE ==>
      b == [LineTo(Point(f.left as real, f.top as real)), LineTo(Point(f.left as real, f.yCenter as real))]
    // concave: one quarter, drawn against the outline's direction, of the oval tucked into the corner,
    // from the top edge to the left edge, each at radius distance
    ensures c.arc == INNER ==>
      |b| == 1 && b[0].ArcTo? && b[0].sweepAngle == -90 &&
      b[0].oval == Rect(f.left as real, f.top as real, f.left as real + f.topLeft.x * 2.0, f.top as real + f.topLeft.y * 2.0) &&
      ArcStart(b[0]) == Point(f.left as real + f.topLeft.x, f.top as real) &&
      ArcEnd(b[0]) == Point(f.left as real, f.top as real + f.topLeft.y)
    // convex on X: lead-in along the top edge line, then a quarter left of the left edge
    ensures Claims(c, X_AXIS) ==>
      |b| == 2 && b[0] == LineTo(Point(f.left as real - f.topLeft.x * 2.0, f.top as real)) &&
      b[1].ArcTo? && b[1].sweepAngle == 90 &&
      b[1].oval == Rect(f.left as real - f.topLeft.x * 2.0, f.top as real, f.left as real, f.top as real + f.topLeft.y * 2.0) &&
      ArcStart(b[1]) == Point(f.left as real - f.topLeft.x, f.top as real) &&
      ArcEnd(b[1]) == Point(f.left as real, f.top as real + f.topLeft.y)
    // convex on Y: a quarter above the top edge, then down the left edge to its middle
    ensures Claims(c, Y_AXIS) ==>
      |b| == 2 && b[0].ArcTo? && b[0].sweepAngle == 90 &&
      b[0].oval == Rect(f.left as real, f.top as real - f.topLeft.y * 2.0, f.left as real + f.topLeft.x * 2.0, f.top as real) &&
      ArcStart(b[0]) == Point(f.left as real + f.topLeft.x, f.top as real) &&
      ArcEnd(b[0]) == Point(f.left as real, f.top as real - f.topLeft.y) &&
      b[1] == LineTo(Point(f.left as real, f.yCenter as real))
    // any other arc type or axis draws nothing
    ensures c.arc != NONE && c.arc != INNER && !Claims(c, X_AXIS) && !Claims(c, Y_AXIS) ==> b == []
  {
    var l, t, yc := f.left as real, f.top as real, f.yCenter as real;
    var rx, ry := f.topLeft.x, f.topLeft.y;
    if c.arc == NONE then
      [LineTo(Point(l, t)), LineTo(Point(l, yc))]
    else if c.arc == INNER then
      [ArcTo(Rect(l, t, l + rx * 2.0, t + ry * 2.0), -90, -90)]
    else if c.arc == OUTER then
      if c.outerAxis == X_AXIS then
        [LineTo(Point(l - rx * 2.0, t)), ArcTo(Rect(l - rx * 2.0, t, l, t + ry * 2.0), -90, 90)]
      else if c.outerAxis == Y_AXIS then
        [ArcTo(Rect(l, t - ry * 2.0, l + rx * 2.0, t), 90, 90), LineTo(Point(l, yc))]
      else []
    else []
  }

  /** The bottom-left corner, drawn from the left edge towards (xCenter, bottom). */
  function BottomLeftBlock(f: Frame, c: Corner): (b: seq<Segment>)
    ensures Draws(b)
    ensures c.arc == NONE ==>
      b == [LineTo(Point(f.left as real, f.bottom as real)), LineTo(Point(f.xCenter as real, f.bottom as real))]
    ensures c.arc == INNER ==>
      |b| == 1 && b[0].ArcTo? && b[0].sweepAngle == -90 &&
      b[0].oval == Rect(f.left as real, f.bottom as real - f.bottomLeft.y * 2.0, f.left as real + f.bottomLeft.x * 2.0, f.bottom as real) &&
      ArcStart(b[0]) == Point(f.left as real, f.bottom as real - f.bottomLeft.y) &&
      ArcEnd(b[0]) == Point(f.left as real + f.bottomLeft.x, f.bottom as real)
    // convex on Y: lead-in down the left edge line, then a quarter below the bottom edge
    ensures Claims(c, Y_AXIS) ==>
      |b| == 2 && b[0] == LineTo(Point(f.left as real, f.bottom as real + f.bottomLeft.y * 2.0)) &&
      b[1].ArcTo? && b[1].sweepAngle == 90 &&
      b[1].oval == Rect(f.left as real, f.bottom as real, f.left as real + f.bottomLeft.x * 2.0, f.bottom as real + f.bottomLeft.y * 2.0) &&
      ArcStart(b[1]) == Point(f.left as real, f.bottom as real + f.bottomLeft.y) &&
      ArcEnd(b[1]) == Point(f.left as real + f.bottomLeft.x, f.bottom as real)
    // convex on X: a quarter left of the left edge, then along the bottom edge to its middle
    ensures Claims(c, X_AXIS) ==>
      |b| == 2 && b[0].ArcTo? && b[0].sweepAngle == 90 &&
      b[0].oval == Rect(f.left as real - f.bottomLeft.x * 2.0, f.bottom as real - f.bottomLeft.y * 2.0, f.left as real, f.bottom as real) &&
      ArcStart(b[0]) == Point(f.left as real, f.bottom as real - f.bottomLeft.y) &&
      ArcEnd(b[0]) == Point(f.left as real - f.bottomLeft.x, f.bottom as real) &&
      b[1] == LineTo(Point(f.xCenter as real, f.bottom as real))
    ensures c.arc != NONE && c.arc != INNER && !Claims(c, X_AXIS) && !Claims(c, Y_AXIS) ==> b == []
  {
    var l, bt, xc := f.left as real, f.bottom as real, f.xCenter as real;
    var rx, ry := f.bottomLeft.x, f.bottomLeft.y;
    if c.arc == NONE then
      [LineTo(Point(l, bt)), LineTo(Point(xc, bt))]
    else if c.arc == INNER then
      [ArcTo(Rect(l, bt - ry * 2.0, l + rx * 2.0, bt), 180, -90)]
    else if c.arc == OUTER then
      if c.outerAxis == Y_AXIS then
        [LineTo(Point(l, bt + ry * 2.0)), ArcTo(Rect(l, bt, l + rx * 2.0, bt + ry * 2.0), 180, 90)]
      else if c.outerAxis == X_AXIS then
        [ArcTo(Rect(l - rx * 2.0, bt - ry * 2.0, l, bt), 0, 90), LineTo(Point(xc, bt))]
      else []
    else []
  }

  /** The bottom-right corner, drawn from the bottom edge towards (right, yCenter). */
  function BottomRightBlock(f: Frame, c: Corner): (b: seq<Segment>)
    ensures Draws(b)
    ensures c.arc == NONE ==>
      b == [LineTo(Point(f.right as real, f.bottom as real)), LineTo(Point(f.right as real, f.yCenter as real))]
    ensures c.arc == INNER ==>
      |b| == 1 && b[0].ArcTo? && b[0].sweepAngle == -90 &&
      b[0].oval == Rect(f.right as real - f.bottomRight.x * 2.0, f.bottom as real - f.bottomRight.y * 2.0, f.right as real, f.bottom as real) &&
      ArcStart(b[0]) == Point(f.right as real - f.bottomRight.x, f.bottom as real) &&
      ArcEnd(b[0]) == Point(f.right as real, f.bottom as real - f.bottomRight.y)
    // convex on X: lead-in along the bottom edge line, then a quarter right of the right edge
    ensures Claims(c, X_AXIS) ==>
      |b| == 2 && b[0] == LineTo(Point(f.right as real + f.bottomRight.x * 2.0, f.bottom as real)) &&
      b[1].ArcTo? && b[1].sweepAngle == 90 &&
      b[1].oval == Rect(f.right as real, f.bottom as real - f.bottomRight.y * 2.0, f.right as real + f.bottomRight.x * 2.0, f.bottom as real) &&
      ArcStart(b[1]) == Point(f.right as real + f.bottomRight.x, f.bottom as real) &&
      ArcEnd(b[1]) == Point(f.right as real, f.bottom as real - f.bottomRight.y)
    // convex on Y: a quarter below the bottom edge, then up the right edge to its middle
    ensures Claims(c, Y_AXIS) ==>
      |b| == 2 && b[0].ArcTo? && b[0].sweepAngle == 90 &&
      b[0].oval == Rect(f.right as real - f.bottomRight.x * 2.0, f.bottom as real, f.right as real, f.bottom as real + f.bottomRight.y * 2.0) &&
      ArcStart(b[0]) == Point(f.right as real - f.bottomRight.x, f.bottom as real) &&
      ArcEnd(b[0]) == Point(f.right as real, f.bottom as real + f.bottomRight.y) &&
      b[1] == LineTo(Point(f.right as real, f.yCenter as real))
    ensures c.arc != NONE && c.arc != INNER && !Claims(c, X_AXIS) && !Claims(c, Y_AXIS) ==> b == []
  {
    var r, bt, yc := f.right as real, f.bottom as real, f.yCenter as real;
    var rx, ry := f.bottomRight.x, f.bottomRight.y;
    if c.arc == NONE then
      [LineTo(Point(r, bt)), LineTo(Point(r, yc))]
    else if c.arc == INNER then
      [ArcTo(Rect(r - rx * 2.0, bt - ry * 2.0, r, bt), 90, -90)]
    else if c.arc == OUTER then
      if c.outerAxis == X_AXIS then
        [LineTo(Point(r + rx * 2.0, bt)), ArcTo(Rect(r, bt - ry * 2.0, r + rx * 2.0, bt), 90, 90)]
      else if c.outerAxis == Y_AXIS then
        [ArcTo(Rect(r - rx * 2.0, bt, r, bt + ry * 2.0), -90, 90), LineTo(Point(r, yc))]
      else []
    else []
  }

  /** The top-right corner, drawn from the right edge back to (xCenter, top). */
  function TopRightBlock(f: Frame, c: Corner): (b: seq<Segment>)
    ensures Draws(b)
    ensures c.arc == NONE ==>
      b == [LineTo(Point(f.right as real, f.top as real)), LineTo(Point(f.xCenter as real, f.top as real))]
    ensures c.arc == INNER ==>
      |b| == 1 && b[0].ArcTo? && b[0].sweepAngle == -90 &&
      b[0].oval == Rect(f.right as real - f.topRight.x * 2.0, f.top as real, f.right as real, f.top as real + f.topRight.y * 2.0) &&
      ArcStart(b[0]) == Point(f.right as real, f.top as real + f.topRight.y) &&
      ArcEnd(b[0]) == Point(f.right as real - f.topRight.x, f.top as real)
    // convex on Y: lead-in up the right edge line, then a quarter above the top edge
    ensures Claims(c, Y_AXIS) ==>
      |b| == 2 && b[0] == LineTo(Point(f.right as real, f.top as real - f.topRight.y * 2.0)) &&
      b[1].ArcTo? && b[1].sweepAngle == 90 &&
      b[1].oval == Rect(f.right as real - f.topRight.x * 2.0, f.top as real - f.topRight.y * 2.0, f.right as real, f.top as real) &&
      ArcStart(b[1]) == Point(f.right as real, f.top as real - f.topRight.y) &&
      ArcEnd(b[1]) == Point(f.right as real - f.topRight.x, f.top as real)
    // convex on X: a quarter right of the right edge, then along the top edge to its middle
    ensures Claims(c, X_AXIS) ==>
      |b| == 2 && b[0].ArcTo? && b[0].sweepAngle == 90 &&
      b[0].oval == Rect(f.right as real, f.top as real, f.right as real + f.topRight.x * 2.0, f.top as real + f.topRight.y * 2.0) &&
      ArcStart(b[0]) == Point(f.right as real, f.top as real + f.topRight.y) &&
      ArcEnd(b[0]) == Point(f.right as real + f.topRight.x, f.top as real) &&
      b[1] == LineTo(Point(f.xCenter as real, f.top as real))
    ensures c.arc != NONE && c.arc != INNER && !Claims(c, X_AXIS) && !Claims(c, Y_AXIS) ==> b == []
  {
    var r, t, xc := f.right as real, f.top as real, f.xCenter as real;
    var rx, ry := f.topRight.x, f.topRight.y;
    if c.arc == NONE then
      [LineTo(Point(r, t)), LineTo(Point(xc, t))]
    else if c.arc == INNER then
      [ArcTo(Rect(r - rx * 2.0, t, r, t + ry * 2.0), 0, -90)]
    else if c.arc == OUTER then
      if c.outerAxis == Y_AXIS then
        [LineTo(Point(r, t - ry * 2.0)), ArcTo(Rect(r - rx * 2.0, t - ry * 2.0, r, t), 0, 90)]
      else if c.outerAxis == X_AXIS then
        [ArcTo(Rect(r, t, r + rx * 2.0, t + ry * 2.0), 180, 90), LineTo(Point(xc, t))]
      else []
    else []
  }

  /** The path ArcShape.draw builds once the frame is known: the start at the middle of
      the top edge, the four corner blocks, and Close. */
  function OutlineOf(f: Frame, p: Params): (o: seq<Segment>)
    ensures SingleClosedContour(o) && QuarterArcs(o)
    ensures o[0] == MoveTo(Point(f.xCenter as real, f.top as real))
  {
    var start := [MoveTo(Point(f.xCenter as real, f.top as real))];
    var tl, bl := TopLeftBlock(f, p.topLeft), BottomLeftBlock(f, p.bottomLeft);
    var br, tr := BottomRightBlock(f, p.bottomRight), TopRightBlock(f, p.topRight);
    ExtendContour(start, tl);
    ExtendContour(start + tl, bl);
    ExtendContour(start + tl + bl, br);
    ExtendContour(start + tl + bl + br, tr);
    CloseContour(start + tl + bl + br + tr);
    start + tl + bl + br + tr + [Close]
  }

  /** The path ArcShape.draw builds on a canvas of `canvasWidth` by `canvasHeight`. */
  function Outline(p: Params, canvasWidth: int, canvasHeight: int): seq<Segment>
  {
    OutlineOf(Factorize(p, canvasWidth, canvasHeight), p)
  }

  /** With four flat corners the outline is the plain rectangle of the whole view: it
      walks the corners and edge midpoints counter-clockwise on screen, starting and
      ending at the middle of the top edge, and draws no arc. */
  lemma AllFlatIsRectangle(p: Params, w: int, h: int)
    requires p.topLeft.arc == NONE && p.topRight.arc == NONE
    requires p.bottomLeft.arc == NONE && p.bottomRight.arc == NONE
    ensures
      var xc, yc := JavaDiv(w, 2) as real, JavaDiv(h, 2) as real;
      var wr, hr := w as real, h as real;
      Outline(p, w, h) ==
        [MoveTo(Point(xc, 0.0)),
         LineTo(Point(0.0, 0.0)), LineTo(Point(0.0, yc)),
         LineTo(Point(0.0, hr)), LineTo(Point(xc, hr)),
         LineTo(Point(wr, hr)), LineTo(Point(wr, yc)),
         LineTo(Point(wr, 0.0)), LineTo(Point(xc, 0.0)),
         Close]
  {
    var f := Factorize(p, w, h);
    assert f.left == 0 && f.top == 0 && f.right == w && f.bottom == h;
    assert f.xCenter == JavaDiv(w, 2) && f.yCenter == JavaDiv(h, 2);
  }

  /** When the top-right corner is flat or convex on X_AXIS, the last segment before
      Close already brings the pen back to the start, whatever the frame. */
  lemma OutlineReturnsToStart(f: Frame, p: Params)
    requires p.topRight.arc == NONE || Claims(p.topRight, X_AXIS)
    ensures var o := OutlineOf(f, p); o[|o| - 2] == LineTo(o[0].to)
  {
    var tr := TopRightBlock(f, p.topRight);
    assert tr[|tr| - 1] == LineTo(Point(f.xCenter as real, f.top as real));
  }

  /** Drawing the whole outline, the pen visits the start at the middle of the top edge,
      then the vertices of each corner in the order draw builds them: top-left,
      bottom-left, bottom-right, top-right. Close adds no vertex of its own. */
  lemma {:induction false} OutlineTrace(f: Frame, p: Params)
    ensures
      var tl, bl := TopLeftBlock(f, p.topLeft), BottomLeftBlock(f, p.bottomLeft);
      var br, tr := BottomRightBlock(f, p.bottomRight), TopRightBlock(f, p.topRight);
      QuarterArcs(tl) && QuarterArcs(bl) && QuarterArcs(br) && QuarterArcs(tr) &&
      Trace(OutlineOf(f, p)) ==
        [Point(f.xCenter as real, f.top as real)] + Trace(tl) + Trace(bl) + Trace(br) + Trace(tr)
  {
    var start := [MoveTo(Point(f.xCenter as real, f.top as real))];
    var tl, bl := TopLeftBlock(f, p.topLeft), BottomLeftBlock(f, p.bottomLeft);
    var br, tr := BottomRightBlock(f, p.bottomRight), TopRightBlock(f, p.topRight);
    assert QuarterArcs(start) && QuarterArcs([Close]);
    assert Trace(start) == [Point(f.xCenter as real, f.top as real)] by {
      assert start[1..] == [];
    }
    assert Trace([Close]) == [] by {
      assert [Close][1..] == [];
    }
    TraceAppend(start, tl);
    TraceAppend(start + tl, bl);
    TraceAppend(start + tl + bl, br);
    TraceAppend(start + tl + bl + br, tr);
    TraceAppend(start + tl + bl + br + tr, [Close]);
  }

  /** A convex top-left corner on X_AXIS first draws its lead-in line to twice the radius
      left of the rectangle, and only then does its arc begin, one radius left of the
      rectangle: the pen goes out and comes back along the top edge line before it
      bends down to the left edge. With a negative radius the arc's oval has negative
      size, so only the lead-in line, now to the right of the left edge, is drawn. */
  lemma ConvexLeadInOvershoots(f: Frame, c: Corner)
    requires Claims(c, X_AXIS)
    ensures
      var l, t := f.left as real, f.top as real;
      var rx, ry := f.topLeft.x, f.topLeft.y;
      0.0 <= rx && 0.0 <= ry ==>
        Trace(TopLeftBlock(f, c)) == [Point(l - rx * 2.0, t), Point(l - rx, t), Point(l, t + ry)]
    ensures
      var l, t := f.left as real, f.top as real;
      var rx, ry := f.topLeft.x, f.topLeft.y;
      rx < 0.0 || ry < 0.0 ==> Trace(TopLeftBlock(f, c)) == [Point(l - rx * 2.0, t)]
  {
    var b := TopLeftBlock(f, c);
    assert b[1..] == [b[1]];
    assert [b[1]][1..] == [];
    assert Trace([b[1]]) == SegmentPoints(b[1]) + Trace([]);
    assert Trace(b) == SegmentPoints(b[0]) + Trace([b[1]]);
  }

  /** When two convex corners claim one edge and their radii truncate to -1 without
      either being exactly -1, the quarter-of-the-view default still applies, while the
      same radius claimed alone is truncated as it is. An unset radius paired with a set
      one below -1 also falls into the default, since the maximum is then -1. */
  lemma TruncatedMaximumMeetsDefault()
    ensures CalcMargin(100, X_AXIS, Corner(OUTER, X_AXIS, -1.5), Corner(OUTER, X_AXIS, -1.5)) == 25
    ensures CalcMargin(100, X_AXIS, Corner(OUTER, X_AXIS, -1.5), Corner(NONE, X_AXIS, -1.5)) == -1
    // an unset radius paired with a set radius below -1 also gives the default, not that radius
    ensures CalcMargin(100, X_AXIS, Corner(OUTER, X_AXIS, UNSET), Corner(OUTER, X_AXIS, -5.0)) == 25
  {
  }

  /** Swapping the two corners that share an edge does not change its margin. */
  lemma CalcMarginSymmetric(dim: int, axis: int, c1: Corner, c2: Corner)
    ensures CalcMargin(dim, axis, c1, c2) == CalcMargin(dim, axis, c2, c1)
  {
  }

  /** A 100 by 100 view whose top-left corner is convex on X_AXIS with radius 20 and whose
      other corners are flat: the lead-in line reaches x = -20 on the top edge, while the
      top-right corner still ends at the middle of the top edge. */
  lemma ConvexTopLeftScenario()
    ensures var p := Params(Corner(OUTER, X_AXIS, 20.0), Corner(NONE, Y_AXIS, UNSET),
                            Corner(NONE, Y_AXIS, UNSET), Corner(NONE, X_AXIS, UNSET));
      var o := Outline(p, 100, 100);
      |o| == 10 && o[0] == MoveTo(Point(60.0, 0.0)) && o[1] == LineTo(Point(-20.0, 0.0)) &&
      o[8] == LineTo(Point(60.0, 0.0))
  {
    var p := Params(Corner(OUTER, X_AXIS, 20.0), Corner(NONE, Y_AXIS, UNSET),
                    Corner(NONE, Y_AXIS, UNSET), Corner(NONE, X_AXIS, UNSET));
    var f := Factorize(p, 100, 100);
    assert f.left == 20 && f.top == 0 && f.right == 100 && f.bottom == 100;
    assert f.xCenter == 60;
  }

  /** A 200 by 200 view with four concave corners of radius 40: each arc rounds its
      corner off with a quarter circle of radius 40, e.g. from (40, 0) to (0, 40) at the
      top left. */
  lemma ConcaveScenario()
    ensures var c := Corner(INNER, Y_AXIS, 40.0);
      var o := Outline(Params(c, c, c, c), 200, 200);
      |o| == 6 &&
      ArcStart(o[1]) == Point(40.0, 0.0) && ArcEnd(o[1]) == Point(0.0, 40.0) &&
      ArcStart(o[2]) == Point(0.0, 160.0) && ArcEnd(o[2]) == Point(40.0, 200.0) &&
      ArcStart(o[3]) == Point(160.0, 200.0) && ArcEnd(o[3]) == Point(200.0, 160.0) &&
      ArcStart(o[4]) == Point(200.0, 40.0) && ArcEnd(o[4]) == Point(160.0, 0.0)
  {
    var c := Corner(INNER, Y_AXIS, 40.0);
    var f := Factorize(Params(c, c, c, c), 200, 200);
    assert f.left == 0 && f.top == 0 && f.right == 200 && f.bottom == 200;
  }

  /** com.stelladk.arclib.ArcShape: the corner parameters it was built with, and the
      fields factorizeSize fills in before each draw (left, top, right, bottom, width,
      height, xCenter, yCenter, xRadius, yRadius and the eight per-corner radii), held
      together as one Frame. */
  class ArcShape {
    const params: Params
    var frame: Frame

    /** Arc types only: X_AXIS at top-left and bottom-right, Y_AXIS at the other two,
        every radius unset. */
    constructor WithArcs(topLeftArc: int, topRightArc: int, bottomLeftArc: int, bottomRightArc: int)
      ensures params == Params(Corner(topLeftArc, X_AXIS, UNSET), Corner(topRightArc, Y_AXIS, UNSET),
                               Corner(bottomLeftArc, Y_AXIS, UNSET), Corner(bottomRightArc, X_AXIS, UNSET))
    {
      params := Params(Corner(topLeftArc, X_AXIS, UNSET), Corner(topRightArc, Y_AXIS, UNSET),
                       Corner(bottomLeftArc, Y_AXIS, UNSET), Corner(bottomRightArc, X_AXIS, UNSET));
    }

    /** Arc types and axes: every radius unset. */
    constructor WithAxes(topLeftArc: int, topRightArc: int, bottomLeftArc: int, bottomRightArc: int,
                         topLeftOuterAxis: int, topRightOuterAxis: int, bottomLeftOuterAxis: int, bottomRightOuterAxis: int)
      ensures params == Params(Corner(topLeftArc, topLeftOuterAxis, UNSET), Corner(topRightArc, topRightOuterAxis, UNSET),
                               Corner(bottomLeftArc, bottomLeftOuterAxis, UNSET), Corner(bottomRightArc, bottomRightOuterAxis, UNSET))
    {
      params := Params(Corner(topLeftArc, topLeftOuterAxis, UNSET), Corner(topRightArc, topRightOuterAxis, UNSET),
                       Corner(bottomLeftArc, bottomLeftOuterAxis, UNSET), Corner(bottomRightArc, bottomRightOuterAxis, UNSET));
    }

    /** Arc types, axes and radii. */
    constructor (topLeftArc: int, topRightArc: int, bottomLeftArc: int, bottomRightArc: int,
                 topLeftOuterAxis: int, topRightOuterAxis: int, bottomLeftOuterAxis: int, bottomRightOuterAxis: int,
                 topLeftRadius: real, topRightRadius: real, bottomLeftRadius: real, bottomRightRadius: real)
      ensures params == Params(Corner(topLeftArc, topLeftOuterAxis, topLeftRadius),
                               Corner(topRightArc, topRightOuterAxis, topRightRadius),
                               Corner(bottomLeftArc, bottomLeftOuterAxis, bottomLeftRadius),
                               Corner(bottomRightArc, bottomRightOuterAxis, bottomRightRadius))
    {
      params := Params(Corner(topLeftArc, topLeftOuterAxis, topLeftRadius),
                       Corner(topRightArc, topRightOuterAxis, topRightRadius),
                       Corner(bottomLeftArc, bottomLeftOuterAxis, bottomLeftRadius),
                       Corner(bottomRightArc, bottomRightOuterAxis, bottomRightRadius));
    }

    /** factorizeSize: fix the rectangle and the radii for a canvas of the given size. */
    method FactorizeSize(viewWidth: int, viewHeight: int)
      modifies this`frame
      ensures frame == Factorize(params, viewWidth, viewHeight)
    {
      var left := CalcMargin(viewWidth, X_AXIS, params.topLeft, params.bottomLeft);
      var top := CalcMargin(viewHeight, Y_AXIS, params.topLeft, params.topRight);
      var bottom := viewHeight - CalcMargin(viewHeight, Y_AXIS, params.bottomLeft, params.bottomRight);
      var right := viewWidth - CalcMargin(viewWidth, X_AXIS, params.topRight, params.bottomRight);

      var width := right - left;
      var height := bottom - top;

      var xCenter := left + JavaDiv(width, 2);
      var yCenter := top + JavaDiv(height, 2);

      var xRadius := DefaultRadius(width);
      var yRadius := DefaultRadius(height);

      // each corner's own radius on both axes, or the default radii when unset
      var topLeft := CornerRadii(params.topLeft.radius, xRadius, yRadius);
      var topRight := CornerRadii(params.topRight.radius, xRadius, yRadius);
      var bottomLeft := CornerRadii(params.bottomLeft.radius, xRadius, yRadius);
      var bottomRight := CornerRadii(params.bottomRight.radius, xRadius, yRadius);

      frame := Frame(left, top, right, bottom, width, height, xCenter, yCenter, xRadius, yRadius,
                     topLeft, topRight, bottomLeft, bottomRight);
    }

    /** draw: size the shape to the canvas and build its even-odd path; the path is
        what gets painted. */
    method Draw(canvasWidth: int, canvasHeight: int) returns (path: Path)
      modifies this`frame
      ensures fresh(path)
      ensures path.segments == Outline(params, canvasWidth, canvasHeight) && path.fillType == EvenOdd
      ensures frame == Factorize(params, canvasWidth, canvasHeight)
    {
      FactorizeSize(canvasWidth, canvasHeight);

      path := new Path();
      path.SetFillType(EvenOdd);

      // begin at (xCenter, top)
      path.MoveTo(frame.xCenter as real, frame.top as real);
      assert path.segments == [MoveTo(Point(frame.xCenter as real, frame.top as real))];
      DrawTopLeft(path);
      DrawBottomLeft(path);
      DrawBottomRight(path);
      DrawTopRight(path);
      path.Close();
    }

    /** The top-left corner, from the top edge to the middle of the left edge. */
    method DrawTopLeft(path: Path)
      modifies path`segments
      ensures path.segments == old(path.segments) + TopLeftBlock(frame, params.topLeft)
    {
      var l, t, yc := frame.left as real, frame.top as real, frame.yCenter as real;
      var rx, ry := frame.topLeft.x, frame.topLeft.y;
      if params.topLeft.arc == NONE {
        path.LineTo(l, t);
        path.LineTo(l, yc);
      } else if params.topLeft.arc == INNER {
        path.ArcTo(Rect(l, t, l + rx * 2.0, t + ry * 2.0), -90, -90);
      } else if params.topLeft.arc == OUTER {
        if params.topLeft.outerAxis == X_AXIS {
          path.LineTo(l - rx * 2.0, t);
          path.ArcTo(Rect(l - rx * 2.0, t, l, t + ry * 2.0), -90, 90);
        } else if params.topLeft.outerAxis == Y_AXIS {
          path.ArcTo(Rect(l, t - ry * 2.0, l + rx * 2.0, t), 90, 90);
          path.LineTo(l, yc);
        }
      }
    }

    /** The bottom-left corner, from the left edge to the middle of the bottom edge. */
    method DrawBottomLeft(path: Path)
      modifies path`segments
      ensures path.segments == old(path.segments) + BottomLeftBlock(frame, params.bottomLeft)
    {
      var l, b, xc := frame.left as real, frame.bottom as real, frame.xCenter as real;
      var rx, ry := frame.bottomLeft.x, frame.bottomLeft.y;
      if params.bottomLeft.arc == NONE {
        path.LineTo(l, b);
        path.LineTo(xc, b);
      } else if params.bottomLeft.arc == INNER {
        path.ArcTo(Rect(l, b - ry * 2.0, l + rx * 2.0, b), 180, -90);
      } else if params.bottomLeft.arc == OUTER {
        if params.bottomLeft.outerAxis == Y_AXIS {
          path.LineTo(l, b + ry * 2.0);
          path.ArcTo(Rect(l, b, l + rx * 2.0, b + ry * 2.0), 180, 90);
        } else if params.bottomLeft.outerAxis == X_AXIS {
          path.ArcTo(Rect(l - rx * 2.0, b - ry * 2.0, l, b), 0, 90);
          path.LineTo(xc, b);
        }
      }
    }

    /** The bottom-right corner, from the bottom edge to the middle of the right edge. */
    method DrawBottomRight(path: Path)
      modifies path`segments
      ensures path.segments == old(path.segments) + BottomRightBlock(frame, params.bottomRight)
    {
      var r, b, yc := frame.right as real, frame.bottom as real, frame.yCenter as real;
      var rx, ry := frame.bottomRight.x, frame.bottomRight.y;
      if params.bottomRight.arc == NONE {
        path.LineTo(r, b);
        path.LineTo(r, yc);
      } else if params.bottomRight.arc == INNER {
        path.ArcTo(Rect(r - rx * 2.0, b - ry * 2.0, r, b), 90, -90);
      } else if params.bottomRight.arc == OUTER {
        if params.bottomRight.outerAxis == X_AXIS {
          path.LineTo(r + rx * 2.0, b);
          path.ArcTo(Rect(r, b - ry * 2.0, r + rx * 2.0, b), 90, 90);
        } else if params.bottomRight.outerAxis == Y_AXIS {
          path.ArcTo(Rect(r - rx * 2.0, b, r, b + ry * 2.0), -90, 90);
          path.LineTo(r, yc);
        }
      }
    }

    /** The top-right corner, from the right edge back to the middle of the top edge. */
    method DrawTopRight(path: Path)
      modifies path`segments
      ensures path.segments == old(path.segments) + TopRightBlock(frame, params.topRight)
    {
      var r, t, xc := frame.right as real, frame.top as real, frame.xCenter as real;
      var rx, ry := frame.topRight.x, frame.topRight.y;
      if params.topRight.arc == NONE {
        path.LineTo(r, t);
        path.LineTo(xc, t);
      } else if params.topRight.arc == INNER {
        path.ArcTo(Rect(r - rx * 2.0, t, r, t + ry * 2.0), 0, -90);
      } else if params.topRight.arc == OUTER {
        if params.topRight.outerAxis == Y_AXIS {
          path.LineTo(r, t - ry * 2.0);
          path.ArcTo(Rect(r - rx * 2.0, t - ry * 2.0, r, t), 0, 90);
        } else if params.topRight.outerAxis == X_AXIS {
          path.ArcTo(Rect(r, t, r + rx * 2.0, t + ry * 2.0), 180, 90);
          path.LineTo(xc, t);
        }
      }
    }
  }
}
