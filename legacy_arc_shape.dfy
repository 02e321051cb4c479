/** The first outline builder, com.stella.arclib.ArcShape: arc types only, no axes and no
    radii. Convex corners shrink the shape to a centred square of half the shorter side,
    and every arc is a quarter of an ellipse sized by the adjusted rectangle itself. */
module LegacyShape {
  import opened Geometry
  import Shape

  /** The arc type of each corner, as the raw int the shape was built with. */
  datatype Arcs = Arcs(topLeft: int, topRight: int, bottomLeft: int, bottomRight: int)

  /** What factorizeSize computes: the adjusted rectangle, its size and integer centre. */
  datatype Frame = Frame(
    left: int, top: int, right: int, bottom: int,
    width: int, height: int,
    xCenter: int, yCenter: int)

  /** (Math.min(viewWidth, viewHeight)) * 2/4: half the shorter side, rounded down. */
  function Side(viewWidth: int, viewHeight: int): (side: int)
    ensures 0 <= viewWidth && 0 <= viewHeight ==>
      0 <= 2 * side <= MinInt(viewWidth, viewHeight) < 2 * side + 2
  {
    JavaDiv(MinInt(viewWidth, viewHeight) * 2, 4)
  }

  /** factorizeSize for a view of `viewWidth` by `viewHeight` pixels: a centred square
      of side Side, except that a corner that is not convex resets one edge to the view's
      own edge (top-left the left edge, top-right the top edge, bottom-left the bottom
      edge, bottom-right the right edge). */
  function Factorize(a: Arcs, viewWidth: int, viewHeight: int): Frame
  {
    var half := JavaDiv(Side(viewWidth, viewHeight), 2);
    var left := if a.topLeft != Shape.OUTER then 0 else JavaDiv(viewWidth, 2) - half;
    var top := if a.topRight != Shape.OUTER then 0 else JavaDiv(viewHeight, 2) - half;
    var right := if a.bottomRight != Shape.OUTER then viewWidth else JavaDiv(viewWidth, 2) + half;
    var bottom := if a.bottomLeft != Shape.OUTER then viewHeight else JavaDiv(viewHeight, 2) + half;
    var width := right - left;
    var height := bottom - top;
    Frame(left, top, right, bottom, width, height,
          left + JavaDiv(width, 2), top + JavaDiv(height, 2))
  }

  predicate AllOuter(a: Arcs)
  {
    a.topLeft == Shape.OUTER && a.topRight == Shape.OUTER &&
    a.bottomLeft == Shape.OUTER && a.bottomRight == Shape.OUTER
  }

  predicate NoOuter(a: Arcs)
  {
    a.topLeft != Shape.OUTER && a.topRight != Shape.OUTER &&
    a.bottomLeft != Shape.OUTER && a.bottomRight != Shape.OUTER
  }

  /** With four convex corners the rectangle is a square centred in the view, inside it,
      whose side is the shorter side of the view halved twice over in integers and
      doubled again: between a quarter-pixel-exact half and three pixels less. */
  lemma AllOuterIsCentredSquare(a: Arcs, w: int, h: int)
    requires AllOuter(a) && 0 <= w && 0 <= h
    ensures var f := Factorize(a, w, h);
      f.width == f.height &&
      0 <= MinInt(w, h) - 2 * f.width <= 3 &&
      0 <= f.left <= f.right <= w && 0 <= f.top <= f.bottom <= h &&
      f.xCenter == JavaDiv(w, 2) && f.yCenter == JavaDiv(h, 2)
  {
    var f := Factorize(a, w, h);
    var m := MinInt(w, h);
    var half := JavaDiv(Side(w, h), 2);
    assert Side(w, h) == m / 2;
    assert half == m / 4;
    assert f.width == 2 * half && f.height == 2 * half;
    assert JavaDiv(2 * half, 2) == half;
  }

  /** Without convex corners the rectangle is the whole view. */
  lemma NoOuterIsCanvas(a: Arcs, w: int, h: int)
    requires NoOuter(a)
    ensures var f := Factorize(a, w, h);
      f.left == 0 && f.top == 0 && f.right == w && f.bottom == h &&
      f.width == w && f.height == h
  {
  }

  /** Each corner decides one edge: a convex corner keeps that edge of the centred
      square, half the side away from the view's centre line, and any other arc type
      resets it to the view's own edge. The top-left corner decides the left edge, the
      top-right the top edge, the bottom-left the bottom edge and the bottom-right the
      right edge. */
  lemma EdgesReset(a: Arcs, w: int, h: int)
    ensures var f := Factorize(a, w, h);
      var half := JavaDiv(Side(w, h), 2);
      (a.topLeft != Shape.OUTER ==> f.left == 0) &&
      (a.topLeft == Shape.OUTER ==> f.left == JavaDiv(w, 2) - half) &&
      (a.topRight != Shape.OUTER ==> f.top == 0) &&
      (a.topRight == Shape.OUTER ==> f.top == JavaDiv(h, 2) - half) &&
      (a.bottomLeft != Shape.OUTER ==> f.bottom == h) &&
      (a.bottomLeft == Shape.OUTER ==> f.bottom == JavaDiv(h, 2) + half) &&
      (a.bottomRight != Shape.OUTER ==> f.right == w) &&
      (a.bottomRight == Shape.OUTER ==> f.right == JavaDiv(w, 2) + half)
  {
  }

  /** An edge depends on its own corner only: two shapes whose corners agree there put
      that edge in the same place, whatever their other corners are. */
  lemma EdgeFollowsOwnCorner(a: Arcs, b: Arcs, w: int, h: int)
    ensures a.topLeft == b.topLeft ==> Factorize(a, w, h).left == Factorize(b, w, h).left
    ensures a.topRight == b.topRight ==> Factorize(a, w, h).top == Factorize(b, w, h).top
    ensures a.bottomLeft == b.bottomLeft ==> Factorize(a, w, h).bottom == Factorize(b, w, h).bottom
    ensures a.bottomRight == b.bottomRight ==> Factorize(a, w, h).right == Factorize(b, w, h).right
  {
  }

  /** The centre is the integer midpoint of the adjusted rectangle, truncated toward its
      left and top edges. */
  lemma CentreIsMidpoint(a: Arcs, w: int, h: int)
    ensures var f := Factorize(a, w, h);
      f.width == f.right - f.left && f.height == f.bottom - f.top &&
      (f.width >= 0 ==> 0 <= f.width - 2 * (f.xCenter - f.left) <= 1) &&
      (f.height >= 0 ==> 0 <= f.height - 2 * (f.yCenter - f.top) <= 1)
  {
  }

  /** The top-left corner, drawn from the top edge towards the left edge. A concave arc
      is a quarter of the ellipse inscribed in the top-left quarter of the rectangle; a
      convex one bulges left of the rectangle by half its width. */
  function TopLeftBlock(f: Frame, arc: int): (b: seq<Segment>)
    ensures Draws(b)
    ensures arc == Shape.NONE ==>
      b == [LineTo(Point(f.left as real, f.top as real)), LineTo(Point(f.left as real, f.yCenter as real))]
    ensures arc == Shape.INNER ==>
      |b| == 1 && b[0].ArcTo? && b[0].sweepAngle == -90 &&
      b[0].oval == Rect(f.left as real, f.top as real, f.xCenter as real, f.yCenter as real) &&
      ArcStart(b[0]) == Point((f.left + f.xCenter) as real / 2.0, f.top as real) &&
      ArcEnd(b[0]) == Point(f.left as real, (f.top + f.yCenter) as real / 2.0)
    ensures arc == Shape.OUTER ==>
      var outside := (f.left - JavaDiv(f.width, 2)) as real;
      |b| == 2 && b[0] == LineTo(Point(outside, f.top as real)) &&
      b[1].ArcTo? && b[1].sweepAngle == 90 && b[1].oval.right == f.left as real &&
      ArcStart(b[1]) == Point((outside + f.left as real) / 2.0, f.top as real) &&
      ArcEnd(b[1]) == Point(f.left as real, (f.top + f.yCenter) as real / 2.0)
    ensures arc != Shape.NONE && arc != Shape.INNER && arc != Shape.OUTER ==> b == []
  {
    var l, t, xc, yc := f.left as real, f.top as real, f.xCenter as real, f.yCenter as real;
    if arc == Shape.NONE then
      [LineTo(Point(l, t)), LineTo(Point(l, yc))]
    else if arc == Shape.INNER then
      [ArcTo(Rect(l, t, xc, yc), -90, -90)]
    else if arc == Shape.OUTER then
      var outside := (f.left - JavaDiv(f.width, 2)) as real;
      [LineTo(Point(outside, t)), ArcTo(Rect(outside, t, l, yc), -90, 90)]
    else []
  }

  /** The bottom-left corner, drawn from the left edge towards the bottom edge; a convex
      arc bulges below the rectangle by half its height. */
  function BottomLeftBlock(f: Frame, arc: int): (b: seq<Segment>)
    ensures Draws(b)
    ensures arc == Shape.NONE ==>
      b == [LineTo(Point(f.left as real, f.bottom as real)), LineTo(Point(f.xCenter as real, f.bottom as real))]
    ensures arc == Shape.INNER ==>
      |b| == 1 && b[0].ArcTo? && b[0].sweepAngle == -90 &&
      b[0].oval == Rect(f.left as real, f.yCenter as real, f.xCenter as real, f.bottom as real) &&
      ArcStart(b[0]) == Point(f.left as real, (f.yCenter + f.bottom) as real / 2.0) &&
      ArcEnd(b[0]) == Point((f.left + f.xCenter) as real / 2.0, f.bottom as real)
    ensures arc == Shape.OUTER ==>
      var outside := (f.bottom + JavaDiv(f.height, 2)) as real;
      |b| == 2 && b[0] == LineTo(Point(f.left as real, outside)) &&
      b[1].ArcTo? && b[1].sweepAngle == 90 && b[1].oval.top == f.bottom as real &&
      ArcStart(b[1]) == Point(f.left as real, (f.bottom as real + outside) / 2.0) &&
      ArcEnd(b[1]) == Point((f.left + f.xCenter) as real / 2.0, f.bottom as real)
    ensures arc != Shape.NONE && arc != Shape.INNER && arc != Shape.OUTER ==> b == []
  {
    var l, bt, xc, yc := f.left as real, f.bottom as real, f.xCenter as real, f.yCenter as real;
    if arc == Shape.NONE then
      [LineTo(Point(l, bt)), LineTo(Point(xc, bt))]
    else if arc == Shape.INNER then
      [ArcTo(Rect(l, yc, xc, bt), 180, -90)]
    else if arc == Shape.OUTER then
      var outside := (f.bottom + JavaDiv(f.height, 2)) as real;
      [LineTo(Point(l, outside)), ArcTo(Rect(l, bt, xc, outside), 180, 90)]
    else []
  }

  /** The bottom-right corner, drawn from the bottom edge towards the right edge; a convex
      arc bulges right of the rectangle by half its width. */
  function BottomRightBlock(f: Frame, arc: int): (b: seq<Segment>)
    ensures Draws(b)
    ensures arc == Shape.NONE ==>
      b == [LineTo(Point(f.right as real, f.bottom as real)), LineTo(Point(f.right as real, f.yCenter as real))]
    ensures arc == Shape.INNER ==>
      |b| == 1 && b[0].ArcTo? && b[0].sweepAngle == -90 &&
      b[0].oval == Rect(f.xCenter as real, f.yCenter as real, f.right as real, f.bottom as real) &&
      ArcStart(b[0]) == Point((f.xCenter + f.right) as real / 2.0, f.bottom as real) &&
      ArcEnd(b[0]) == Point(f.right as real, (f.yCenter + f.bottom) as real / 2.0)
    ensures arc == Shape.OUTER ==>
      var outside := (f.right + JavaDiv(f.width, 2)) as real;
      |b| == 2 && b[0] == LineTo(Point(outside, f.bottom as real)) &&
      b[1].ArcTo? && b[1].sweepAngle == 90 && b[1].oval.left == f.right as real &&
      ArcStart(b[1]) == Point((f.right as real + outside) / 2.0, f.bottom as real) &&
      ArcEnd(b[1]) == Point(f.right as real, (f.yCenter + f.bottom) as real / 2.0)
    ensures arc != Shape.NONE && arc != Shape.INNER && arc != Shape.OUTER ==> b == []
  {
    var r, bt, xc, yc := f.right as real, f.bottom as real, f.xCenter as real, f.yCenter as real;
    if arc == Shape.NONE then
      [LineTo(Point(r, bt)), LineTo(Point(r, yc))]
    else if arc == Shape.INNER then
      [ArcTo(Rect(xc, yc, r, bt), 90, -90)]
    else if arc == Shape.OUTER then
      var outside := (f.right + JavaDiv(f.width, 2)) as real;
      [LineTo(Point(outside, bt)), ArcTo(Rect(r, yc, outside, bt), 90, 90)]
    else []
  }

  /** The top-right corner, drawn from the right edge back towards the top edge; a convex
      arc bulges above the rectangle by half its height. */
  function TopRightBlock(f: Frame, arc: int): (b: seq<Segment>)
    ensures Draws(b)
    ensures arc == Shape.NONE ==>
      b == [LineTo(Point(f.right as real, f.top as real)), LineTo(Point(f.xCenter as real, f.top as real))]
    ensures arc == Shape.INNER ==>
      |b| == 1 && b[0].ArcTo? && b[0].sweepAngle == -90 &&
      b[0].oval == Rect(f.xCenter as real, f.top as real, f.right as real, f.yCenter as real) &&
      ArcStart(b[0]) == Point(f.right as real, (f.top + f.yCenter) as real / 2.0) &&
      ArcEnd(b[0]) == Point((f.xCenter + f.right) as real / 2.0, f.top as real)
    ensures arc == Shape.OUTER ==>
      var outside := (f.top - JavaDiv(f.height, 2)) as real;
      |b| == 2 && b[0] == LineTo(Point(f.right as real, outside)) &&
      b[1].ArcTo? && b[1].sweepAngle == 90 && b[1].oval.bottom == f.top as real &&
      ArcStart(b[1]) == Point(f.right as real, (outside + f.top as real) / 2.0) &&
      ArcEnd(b[1]) == Point((f.xCenter + f.right) as real / 2.0, f.top as real)
    ensures arc != Shape.NONE && arc != Shape.INNER && arc != Shape.OUTER ==> b == []
  {
    var r, t, xc, yc := f.right as real, f.top as real, f.xCenter as real, f.yCenter as real;
    if arc == Shape.NONE then
      [LineTo(Point(r, t)), LineTo(Point(xc, t))]
    else if arc == Shape.INNER then
      [ArcTo(Rect(xc, t, r, yc), 0, -90)]
    else if arc == Shape.OUTER then
      var outside := (f.top - JavaDiv(f.height, 2)) as real;
      [LineTo(Point(r, outside)), ArcTo(Rect(xc, outside, r, t), 0, 90)]
    else []
  }

  /** The path draw builds once the frame is known: the start at the middle of the top
      edge, the four corner blocks, and Close. */
  function OutlineOf(f: Frame, a: Arcs): (o: seq<Segment>)
    ensures SingleClosedContour(o) && QuarterArcs(o)
    ensures o[0] == MoveTo(Point(f.xCenter as real, f.top as real))
  {
    var start := [MoveTo(Point(f.xCenter as real, f.top as real))];
    var tl, bl := TopLeftBlock(f, a.topLeft), BottomLeftBlock(f, a.bottomLeft);
    var br, tr := BottomRightBlock(f, a.bottomRight), TopRightBlock(f, a.topRight);
    ExtendContour(start, tl);
    ExtendContour(start + tl, bl);
    ExtendContour(start + tl + bl, br);
    ExtendContour(start + tl + bl + br, tr);
    CloseContour(start + tl + bl + br + tr);
    start + tl + bl + br + tr + [Close]
  }

  /** The path draw builds on a canvas of `canvasWidth` by `canvasHeight`. */
  function Outline(a: Arcs, canvasWidth: int, canvasHeight: int): seq<Segment>
  {
    OutlineOf(Factorize(a, canvasWidth, canvasHeight), a)
  }

  /** With four flat corners the first shape and its successor draw the same path, the
      plain rectangle of the view, whatever axes and radii the successor was given. */
  lemma FlatAgreesWithSuccessor(a: Arcs, p: Shape.Params, w: int, h: int)
    requires a == Arcs(Shape.NONE, Shape.NONE, Shape.NONE, Shape.NONE)
    requires p.topLeft.arc == Shape.NONE && p.topRight.arc == Shape.NONE
    requires p.bottomLeft.arc == Shape.NONE && p.bottomRight.arc == Shape.NONE
    ensures Outline(a, w, h) == Shape.Outline(p, w, h)
  {
    Shape.AllFlatIsRectangle(p, w, h);
    var f := Factorize(a, w, h);
    assert f.left == 0 && f.top == 0 && f.right == w && f.bottom == h;
    assert f.xCenter == JavaDiv(w, 2) && f.yCenter == JavaDiv(h, 2);
  }

  /** A 200 by 100 view with four convex corners: the square has side 50 and sits at
      (75, 25)-(125, 75); the top-left lead-in line reaches x = 50. */
  lemma AllConvexScenario()
    ensures var a := Arcs(Shape.OUTER, Shape.OUTER, Shape.OUTER, Shape.OUTER);
      Factorize(a, 200, 100) == Frame(75, 25, 125, 75, 50, 50, 100, 50) &&
      Outline(a, 200, 100)[1] == LineTo(Point(50.0, 25.0))
  {
    var a := Arcs(Shape.OUTER, Shape.OUTER, Shape.OUTER, Shape.OUTER);
    assert Side(200, 100) == 50;
    assert Factorize(a, 200, 100) == Frame(75, 25, 125, 75, 50, 50, 100, 50);
  }

  /** com.stella.arclib.ArcShape: the arc types it was built with, and the fields
      factorizeSize fills in before each draw (left, top, right, bottom, width, height,
      xCenter, yCenter), held together as one Frame. */
  class ArcShape {
    const arcs: Arcs
    var frame: Frame

    constructor (topLeftArc: int, topRightArc: int, bottomLeftArc: int, bottomRightArc: int)
      ensures arcs == Arcs(topLeftArc, topRightArc, bottomLeftArc, bottomRightArc)
    {
      arcs := Arcs(topLeftArc, topRightArc, bottomLeftArc, bottomRightArc);
    }

    /** factorizeSize: fix the rectangle for a canvas of the given size. */
    method FactorizeSize(viewWidth: int, viewHeight: int)
      modifies this`frame
      ensures frame == Factorize(arcs, viewWidth, viewHeight)
    {
      ghost var g := Factorize(arcs, viewWidth, viewHeight);
      var side := Side(viewWidth, viewHeight);

      var left := JavaDiv(viewWidth, 2) - JavaDiv(side, 2);
      var top := JavaDiv(viewHeight, 2) - JavaDiv(side, 2);
      var right := JavaDiv(viewWidth, 2) + JavaDiv(side, 2);
      var bottom := JavaDiv(viewHeight, 2) + JavaDiv(side, 2);

      if arcs.topLeft != Shape.OUTER { left := 0; }
      assert left == g.left;
      if arcs.topRight != Shape.OUTER { top := 0; }
      assert top == g.top;
      if arcs.bottomLeft != Shape.OUTER { bottom := viewHeight; }
      assert bottom == g.bottom;
      if arcs.bottomRight != Shape.OUTER { right := viewWidth; }
      assert right == g.right;

      var width := right - left;
      var height := bottom - top;
      assert width == g.width && height == g.height;

      var xCenter := left + JavaDiv(width, 2);
      var yCenter := top + JavaDiv(height, 2);
      assert xCenter == g.xCenter && yCenter == g.yCenter;

      frame := Frame(left, top, right, bottom, width, height, xCenter, yCenter);
    }

    /** draw: size the shape to the canvas and build its even-odd path. */
    method Draw(canvasWidth: int, canvasHeight: int) returns (path: Path)
      modifies this`frame
      ensures fresh(path)
      ensures path.segments == Outline(arcs, canvasWidth, canvasHeight) && path.fillType == EvenOdd
      ensures frame == Factorize(arcs, canvasWidth, canvasHeight)
    {
      FactorizeSize(canvasWidth, canvasHeight);

      path := new Path();
      path.SetFillType(EvenOdd);

      // begin at (xCenter, top)
      path.MoveTo(frame.xCenter as real, frame.top as real);
      assert path.segments == [MoveTo(Point(frame.xCenter as real, frame.top as real))];
      DrawTopLeft(path);
      DrawBottomLeft(path);
      DrawBottomRight(path);
      DrawTopRight(path);
      path.Close();
    }

    method DrawTopLeft(path: Path)
      modifies path`segments
      ensures path.segments == old(path.segments) + TopLeftBlock(frame, arcs.topLeft)
    {
      var l, t, xc, yc := frame.left as real, frame.top as real, frame.xCenter as real, frame.yCenter as real;
      if arcs.topLeft == Shape.NONE {
        path.LineTo(l, t);
        path.LineTo(l, yc);
      } else if arcs.topLeft == Shape.INNER {
        path.ArcTo(Rect(l, t, xc, yc), -90, -90);
      } else if arcs.topLeft == Shape.OUTER {
        var outside := (frame.left - JavaDiv(frame.width, 2)) as real;
        path.LineTo(outside, t);
        path.ArcTo(Rect(outside, t, l, yc), -90, 90);
      }
    }

    method DrawBottomLeft(path: Path)
      modifies path`segments
      ensures path.segments == old(path.segments) + BottomLeftBlock(frame, arcs.bottomLeft)
    {
      var l, b, xc, yc := frame.left as real, frame.bottom as real, frame.xCenter as real, frame.yCenter as real;
      if arcs.bottomLeft == Shape.NONE {
        path.LineTo(l, b);
        path.LineTo(xc, b);
      } else if arcs.bottomLeft == Shape.INNER {
        path.ArcTo(Rect(l, yc, xc, b), 180, -90);
      } else if arcs.bottomLeft == Shape.OUTER {
        var outside := (frame.bottom + JavaDiv(frame.height, 2)) as real;
        path.LineTo(l, outside);
        path.ArcTo(Rect(l, b, xc, outside), 180, 90);
      }
    }

    method DrawBottomRight(path: Path)
      modifies path`segments
      ensures path.segments == old(path.segments) + BottomRightBlock(frame, arcs.bottomRight)
    {
      var r, b, xc, yc := frame.right as real, frame.bottom as real, frame.xCenter as real, frame.yCenter as real;
      if arcs.bottomRight == Shape.NONE {
        path.LineTo(r, b);
        path.LineTo(r, yc);
      } else if arcs.bottomRight == Shape.INNER {
        path.ArcTo(Rect(xc, yc, r, b), 90, -90);
      } else if arcs.bottomRight == Shape.OUTER {
        var outside := (frame.right + JavaDiv(frame.width, 2)) as real;
        path.LineTo(outside, b);
        path.ArcTo(Rect(r, yc, outside, b), 90, 90);
      }
    }

    method DrawTopRight(path: Path)
      modifies path`segments
      ensures path.segments == old(path.segments) + TopRightBlock(frame, arcs.topRight)
    {
      var r, t, xc, yc := frame.right as real, frame.top as real, frame.xCenter as real, frame.yCenter as real;
      if arcs.topRight == Shape.NONE {
        path.LineTo(r, t);
        path.LineTo(xc, t);
      } else if arcs.topRight == Shape.INNER {
        path.ArcTo(Rect(xc, t, r, yc), 0, -90);
      } else if arcs.topRight == Shape.OUTER {
        var outside := (frame.top - JavaDiv(frame.height, 2)) as real;
        path.LineTo(r, outside);
        path.ArcTo(Rect(xc, outside, r, t), 0, 90);
      }
    }
  }
}
