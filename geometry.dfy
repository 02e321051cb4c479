/** Plane geometry and the recorded form of an android.graphics.Path, shared by both
    outline builders. Coordinates are pixels with y growing downwards; angles are in
    degrees, 0 at the right-centre of an oval, growing clockwise on screen. */
module Geometry {

  datatype Point = Point(x: real, y: real)

  /** An axis-aligned rectangle, as android.graphics.RectF(left, top, right, bottom). */
  datatype Rect = Rect(left: real, top: real, right: real, bottom: real)
  {
    function CenterX(): real { (left + right) / 2.0 }
    function CenterY(): real { (top + bottom) / 2.0 }
  }

  /** One call made on a Path, in the order it was made. */
  datatype Segment =
    | MoveTo(to: Point)
    | LineTo(to: Point)
    | ArcTo(oval: Rect, startAngle: int, sweepAngle: int)
    | Close

  datatype FillType = Winding | EvenOdd

  /** Java's `a / d` on int, which truncates toward zero (Dafny's `/` is Euclidean). */
  function JavaDiv(a: int, d: int): (q: int)
    requires d > 0
    ensures 0 <= a ==> 0 <= q && 0 <= a - q * d < d
    ensures a < 0 ==> q <= 0 && -d < a - q * d <= 0
  {
    if a >= 0 then a / d else -((-a) / d)
  }

  /** Java's `(int)` cast of a float, which truncates toward zero. */
  function Truncate(r: real): (t: int)
    ensures 0.0 <= r ==> 0 <= t && t as real <= r < t as real + 1.0
    ensures r < 0.0 ==> t <= 0 && t as real - 1.0 < r <= t as real
  {
    if r >= 0.0 then r.Floor else -((-r).Floor)
  }

  /** Math.max on floats (NaN aside). */
  function MaxReal(a: real, b: real): (m: real)
    ensures a <= m && b <= m && (m == a || m == b)
  {
    if a >= b then a else b
  }

  /** Math.min on ints. */
  function MinInt(a: int, b: int): (m: int)
    ensures m <= a && m <= b && (m == a || m == b)
  {
    if a <= b then a else b
  }

  /** `p` lies on the ellipse inscribed in `oval`. */
  ghost predicate OnOval(oval: Rect, p: Point)
  {
    var rx := (oval.right - oval.left) / 2.0;
    var ry := (oval.bottom - oval.top) / 2.0;
    var dx := p.x - oval.CenterX();
    var dy := p.y - oval.CenterY();
    dx * dx * ry * ry + dy * dy * rx * rx == rx * rx * ry * ry
  }

  /** The point of the ellipse inscribed in `oval` at an angle that is a multiple of
      90 degrees: an edge midpoint of `oval`. */
  function OvalPoint(oval: Rect, degrees: int): (p: Point)
    requires degrees % 90 == 0
    ensures OnOval(oval, p)
    ensures degrees % 360 == 0 ==> p.x == oval.right
    ensures degrees % 360 == 90 ==> p.y == oval.bottom
    ensures degrees % 360 == 180 ==> p.x == oval.left
    ensures degrees % 360 == 270 ==> p.y == oval.top
  {
    var a := degrees % 360;
    if a == 0 then Point(oval.right, oval.CenterY())
    else if a == 90 then Point(oval.CenterX(), oval.bottom)
    else if a == 180 then Point(oval.left, oval.CenterY())
    else Point(oval.CenterX(), oval.top)
  }

  /** Every arc of the path is a quarter of an ellipse starting at a multiple of 90 degrees. */
  predicate QuarterArc(s: Segment)
  {
    s.ArcTo? ==> s.startAngle % 90 == 0 && (s.sweepAngle == 90 || s.sweepAngle == -90)
  }

  predicate QuarterArcs(path: seq<Segment>)
  {
    forall i :: 0 <= i < |path| ==> QuarterArc(path[i])
  }

  /** Where a quarter arc begins. */
  function ArcStart(s: Segment): Point
    requires s.ArcTo? && QuarterArc(s)
  {
    OvalPoint(s.oval, s.startAngle)
  }

  /** Where a quarter arc ends. */
  function ArcEnd(s: Segment): Point
    requires s.ArcTo? && QuarterArc(s)
  {
    OvalPoint(s.oval, s.startAngle + s.sweepAngle)
  }

  /** Path.arcTo ignores an oval of negative width or height: it adds neither the arc nor
      the line to its start. */
  predicate Drawable(oval: Rect)
  {
    oval.left <= oval.right && oval.top <= oval.bottom
  }

  /** The points the pen passes through for one segment. Path.arcTo without forceMoveTo
      first draws a line from the current point to the arc's start, so an arc on a
      drawable oval contributes its start and its end, and one on any other oval
      nothing; Close contributes nothing of its own, it only joins the pen back to the
      start of the contour. */
  function SegmentPoints(s: Segment): seq<Point>
    requires QuarterArc(s)
  {
    match s
    case MoveTo(p) => [p]
    case LineTo(p) => [p]
    case ArcTo(oval, _, _) => if Drawable(oval) then [ArcStart(s), ArcEnd(s)] else []
    case Close => []
  }

  /** The vertices the pen visits, in order, when the path is drawn. */
  function Trace(path: seq<Segment>): seq<Point>
    requires QuarterArcs(path)
  {
    if path == [] then [] else SegmentPoints(path[0]) + Trace(path[1..])
  }

  lemma QuarterArcsAppend(a: seq<Segment>, b: seq<Segment>)
    requires QuarterArcs(a) && QuarterArcs(b)
    ensures QuarterArcs(a + b)
  {
    assert forall i :: 0 <= i < |a + b| ==> (a + b)[i] == if i < |a| then a[i] else b[i - |a|];
  }

  /** Tracing a path made of two parts visits the vertices of the first, then those of
      the second. */
  lemma {:induction false} TraceAppend(a: seq<Segment>, b: seq<Segment>)
    requires QuarterArcs(a) && QuarterArcs(b)
    ensures QuarterArcs(a + b)
    ensures Trace(a + b) == Trace(a) + Trace(b)
  {
    QuarterArcsAppend(a, b);
    if a == [] {
      assert a + b == b;
    } else {
      assert (a + b)[0] == a[0];
      assert (a + b)[1..] == a[1..] + b;
      TraceAppend(a[1..], b);
      assert Trace(a + b) == SegmentPoints(a[0]) + Trace(a[1..] + b);
      assert Trace(a) == SegmentPoints(a[0]) + Trace(a[1..]);
    }
  }

  /** The contour is closed: it begins with a MoveTo, ends with Close, and draws only
      lines and arcs in between. */
  predicate SingleClosedContour(path: seq<Segment>)
  {
    |path| >= 2 && path[0].MoveTo? && path[|path| - 1] == Close &&
    forall i :: 0 < i < |path| - 1 ==> path[i].LineTo? || path[i].ArcTo?
  }

  /** Every segment draws: a line or a quarter arc. */
  predicate Draws(b: seq<Segment>)
  {
    forall i :: 0 <= i < |b| ==> (b[i].LineTo? || b[i].ArcTo?) && QuarterArc(b[i])
  }

  /** An open contour: a MoveTo followed by lines and quarter arcs only. */
  predicate OpenContour(s: seq<Segment>)
  {
    |s| >= 1 && s[0].MoveTo? &&
    forall i :: 0 < i < |s| ==> (s[i].LineTo? || s[i].ArcTo?) && QuarterArc(s[i])
  }

  lemma ExtendContour(s: seq<Segment>, b: seq<Segment>)
    requires OpenContour(s) && Draws(b)
    ensures OpenContour(s + b)
  {
    assert forall i :: 0 <= i < |s + b| ==> (s + b)[i] == if i < |s| then s[i] else b[i - |s|];
  }

  lemma CloseContour(s: seq<Segment>)
    requires OpenContour(s)
    ensures SingleClosedContour(s + [Close]) && QuarterArcs(s + [Close])
  {
    assert forall i :: 0 <= i < |s| ==> (s + [Close])[i] == s[i];
  }

  /** android.graphics.Path, recording the calls made on it in order. An arcTo call is
      recorded whatever its oval; what it draws is given by Trace. */
  class Path {
    var segments: seq<Segment>
    var fillType: FillType

    constructor ()
      ensures segments == [] && fillType == Winding
    {
      segments := [];
      fillType := Winding;
    }

    method SetFillType(t: FillType)
      modifies this`fillType
      ensures fillType == t
    {
      fillType := t;
    }

    method MoveTo(x: real, y: real)
      modifies this`segments
      ensures segments == old(segments) + [Segment.MoveTo(Point(x, y))]
    {
      segments := segments + [Segment.MoveTo(Point(x, y))];
    }

    method LineTo(x: real, y: real)
      modifies this`segments
      ensures segments == old(segments) + [Segment.LineTo(Point(x, y))]
    {
      segments := segments + [Segment.LineTo(Point(x, y))];
    }

    method ArcTo(oval: Rect, startAngle: int, sweepAngle: int)
      modifies this`segments
      ensures segments == old(segments) + [Segment.ArcTo(oval, startAngle, sweepAngle)]
    {
      segments := segments + [Segment.ArcTo(oval, startAngle, sweepAngle)];
    }

    method Close()
      modifies this`segments
      ensures segments == old(segments) + [Segment.Close]
    {
      segments := segments + [Segment.Close];
    }
  }
}
