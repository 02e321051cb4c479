/** What ArcLayout and ArcButton share: the clamping rules of their setters, the attribute
    defaults of their init, the cached mask, the paint they keep between draws and the
    drawing operations one draw issues. */
module Widget {
  import opened Geometry
  import Shape

  datatype Option<T> = None | Some(value: T)

  /** android.graphics.Color constants, as the ARGB ints Java holds. */
  const WHITE: int := -1
  const GRAY: int := -7829368
  const BLACK: int := -16777216

  /** ArcLayout's shadowRadius and shadowDx. */
  const SHADOW_RADIUS: real := 20.0
  const SHADOW_DX: real := 0.0

  /** Used by arc-type setters: zero is NONE, any negative value INNER, any positive
      value OUTER. */
  function ClampArc(arc: int): (c: int)
    ensures c == Shape.INNER || c == Shape.NONE || c == Shape.OUTER
    ensures c == Shape.NONE <==> arc == Shape.NONE
    ensures c == Shape.INNER <==> arc < Shape.NONE
    ensures c == Shape.OUTER <==> arc > Shape.NONE
    ensures arc == Shape.INNER || arc == Shape.NONE || arc == Shape.OUTER ==> c == arc
  {
    if arc == Shape.NONE then Shape.NONE
    else if arc <= Shape.INNER then Shape.INNER
    else Shape.OUTER
  }

  /** Used by axis setters: zero or below is X_AXIS, one or above Y_AXIS. */
  function ClampAxis(axis: int): (c: int)
    ensures c == Shape.X_AXIS || c == Shape.Y_AXIS
    ensures c == Shape.X_AXIS <==> axis <= Shape.X_AXIS
    ensures axis == Shape.X_AXIS || axis == Shape.Y_AXIS ==> c == axis
  {
    if axis <= Shape.X_AXIS then Shape.X_AXIS else Shape.Y_AXIS
  }

  /** TypedArray.getInteger / getDimension / getBoolean / getColor with a default: the
      attribute when it is set, the default otherwise. */
  function GetOr<T>(attribute: Option<T>, default: T): T
  {
    if attribute.Some? then attribute.value else default
  }

  /** The corner attributes a widget may be given in XML: a global arc type, outer axis
      and radius, and the same three per corner. An absent attribute is None. */
  datatype ShapeAttributes = ShapeAttributes(
    arcType: Option<int>, outerAxis: Option<int>, arcRadius: Option<real>,
    topLeftArc: Option<int>, topRightArc: Option<int>, bottomLeftArc: Option<int>, bottomRightArc: Option<int>,
    topLeftOuterAxis: Option<int>, topRightOuterAxis: Option<int>,
    bottomLeftOuterAxis: Option<int>, bottomRightOuterAxis: Option<int>,
    topLeftRadius: Option<real>, topRightRadius: Option<real>,
    bottomLeftRadius: Option<real>, bottomRightRadius: Option<real>)

  datatype StrokeAttributes = StrokeAttributes(stroke: Option<bool>, strokeColor: Option<int>, strokeWidth: Option<real>)

  datatype ShadowAttributes = ShadowAttributes(shadow: Option<bool>, shadowColor: Option<int>, elevation: Option<real>)

  /** The global values init reads first: NONE, Y_AXIS and an unset radius by default. */
  function GlobalCorner(a: ShapeAttributes): Shape.Corner
  {
    Shape.Corner(GetOr(a.arcType, Shape.NONE), GetOr(a.outerAxis, Shape.Y_AXIS), GetOr(a.arcRadius, Shape.UNSET))
  }

  /** One corner as init reads it: each of its three attributes, or the global value. */
  function CornerFrom(arc: Option<int>, axis: Option<int>, radius: Option<real>, global: Shape.Corner): Shape.Corner
  {
    Shape.Corner(GetOr(arc, global.arc), GetOr(axis, global.outerAxis), GetOr(radius, global.radius))
  }

  /** The four corners init reads. Nothing is clamped here: an out-of-range arc type given
      in XML is kept as it is. */
  function CornersFrom(a: ShapeAttributes): Shape.Params
  {
    var g := GlobalCorner(a);
    Shape.Params(
      CornerFrom(a.topLeftArc, a.topLeftOuterAxis, a.topLeftRadius, g),
      CornerFrom(a.topRightArc, a.topRightOuterAxis, a.topRightRadius, g),
      CornerFrom(a.bottomLeftArc, a.bottomLeftOuterAxis, a.bottomLeftRadius, g),
      CornerFrom(a.bottomRightArc, a.bottomRightOuterAxis, a.bottomRightRadius, g))
  }

  /** A value init reads with a fallback: the corner's own attribute when it is given,
      else the global attribute, else the built-in default. */
  predicate FallsBack<T(==)>(own: Option<T>, global: Option<T>, default: T, v: T)
  {
    (own.Some? ==> v == own.value) &&
    (own.None? && global.Some? ==> v == global.value) &&
    (own.None? && global.None? ==> v == default)
  }

  /** Every attribute of every corner falls back to the global attribute, and that to
      NONE, Y_AXIS and an unset radius. */
  lemma CornerFallsBack(a: ShapeAttributes)
    ensures var c := CornersFrom(a);
      FallsBack(a.topLeftArc, a.arcType, Shape.NONE, c.topLeft.arc) &&
      FallsBack(a.topLeftOuterAxis, a.outerAxis, Shape.Y_AXIS, c.topLeft.outerAxis) &&
      FallsBack(a.topLeftRadius, a.arcRadius, Shape.UNSET, c.topLeft.radius)
    ensures var c := CornersFrom(a);
      FallsBack(a.topRightArc, a.arcType, Shape.NONE, c.topRight.arc) &&
      FallsBack(a.topRightOuterAxis, a.outerAxis, Shape.Y_AXIS, c.topRight.outerAxis) &&
      FallsBack(a.topRightRadius, a.arcRadius, Shape.UNSET, c.topRight.radius)
    ensures var c := CornersFrom(a);
      FallsBack(a.bottomLeftArc, a.arcType, Shape.NONE, c.bottomLeft.arc) &&
      FallsBack(a.bottomLeftOuterAxis, a.outerAxis, Shape.Y_AXIS, c.bottomLeft.outerAxis) &&
      FallsBack(a.bottomLeftRadius, a.arcRadius, Shape.UNSET, c.bottomLeft.radius)
    ensures var c := CornersFrom(a);
      FallsBack(a.bottomRightArc, a.arcType, Shape.NONE, c.bottomRight.arc) &&
      FallsBack(a.bottomRightOuterAxis, a.outerAxis, Shape.Y_AXIS, c.bottomRight.outerAxis) &&
      FallsBack(a.bottomRightRadius, a.arcRadius, Shape.UNSET, c.bottomRight.radius)
  {
  }

  /** The cached mask: a width by height bitmap painted white, with the shape's outline
      then cleared out of it. Only its size and the outline are kept. */
  datatype Mask = Mask(width: int, height: int, cleared: seq<Segment>)

  /** The mask createMask builds for shapes with parameters `p`: the shape's outline for a
      canvas of the mask's own size. */
  function MaskOf(p: Shape.Params, width: int, height: int): Mask
  {
    Mask(width, height, Shape.Outline(p, width, height))
  }

  /** A mask has the size it was built for, and what it clears is one closed contour
      starting at the middle of the shape's top edge. */
  lemma MaskClearsClosedOutline(p: Shape.Params, width: int, height: int)
    ensures var m := MaskOf(p, width, height);
      m.width == width && m.height == height &&
      SingleClosedContour(m.cleared) &&
      m.cleared[0] == MoveTo(Point(Shape.Factorize(p, width, height).xCenter as real,
                                   Shape.Factorize(p, width, height).top as real))
  {
  }

  datatype Style = Fill | Stroke | FillAndStroke

  /** The part of android.graphics.Paint the widgets change. */
  datatype PaintState = PaintState(style: Style, strokeWidth: real, color: int)

  /** new Paint(ANTI_ALIAS_FLAG): fill, hairline, black. */
  const DEFAULT_PAINT := PaintState(Fill, 0.0, BLACK)

  /** What the stroke pass leaves in the widget's paint: stroke style, the stroke width and
      colour. */
  function StrokePaint(strokeWidth: real, strokeColor: int): PaintState
  {
    PaintState(Stroke, strokeWidth, strokeColor)
  }

  /** A drawing operation issued by a widget's draw. */
  datatype RenderOp =
      /** super.draw of the widget's content into a fresh width by height offscreen bitmap */
    | DrawContent(width: int, height: int)
      /** an outline filled on the canvas with a blurred shadow layer */
    | DrawShadow(outline: seq<Segment>, blur: real, dx: real, dy: real, color: int)
      /** the mask drawn over the offscreen bitmap in CLEAR mode */
    | ClearByMask(mask: Mask)
      /** the offscreen bitmap drawn onto the canvas with the widget's paint */
    | Composite(paint: PaintState)
      /** an outline stroked on the canvas */
    | DrawStroke(outline: seq<Segment>, paint: PaintState)

  /** The shadow operation of a draw: the outline filled with a shadow layer of radius
      20, horizontal offset 0 and vertical offset the elevation, when the shadow is on. */
  function ShadowOp(shadow: bool, outline: seq<Segment>, elevation: real, shadowColor: int): Option<RenderOp>
  {
    if shadow then Some(DrawShadow(outline, SHADOW_RADIUS, SHADOW_DX, elevation, shadowColor)) else None
  }

  /** The stroke operation of a draw: the outline stroked with the stroke paint, when the
      stroke is on. */
  function StrokeOp(stroke: bool, outline: seq<Segment>, strokeWidth: real, strokeColor: int): Option<RenderOp>
  {
    if stroke then Some(DrawStroke(outline, StrokePaint(strokeWidth, strokeColor))) else None
  }

  /** One draw of a masked widget: the content, the optional shadow, the mask cleared out
      of the content, the composite, the optional stroke. */
  function DrawPass(width: int, height: int, shadow: Option<RenderOp>, mask: Mask,
                    paint: PaintState, stroke: Option<RenderOp>): seq<RenderOp>
  {
    [DrawContent(width, height)] +
    (if shadow.Some? then [shadow.value] else []) +
    [ClearByMask(mask), Composite(paint)] +
    (if stroke.Some? then [stroke.value] else [])
  }

  /** Within one pass, the content comes first; the mask is cleared out of it immediately
      before the composite; the shadow, when there is one, is drawn before the mask is
      applied and the stroke, when there is one, after the composite, as the last
      operation. */
  lemma {:induction false} DrawPassOrder(width: int, height: int, shadow: Option<RenderOp>, mask: Mask,
                                         paint: PaintState, stroke: Option<RenderOp>)
    ensures var ops := DrawPass(width, height, shadow, mask, paint, stroke);
      var i := if shadow.Some? then 2 else 1;
      ops[0] == DrawContent(width, height) &&
      |ops| == i + 2 + (if stroke.Some? then 1 else 0) &&
      ops[i] == ClearByMask(mask) && ops[i + 1] == Composite(paint) &&
      (shadow.Some? ==> ops[1] == shadow.value) &&
      (stroke.Some? ==> ops[|ops| - 1] == stroke.value) &&
      (stroke.None? ==> ops[|ops| - 1] == Composite(paint))
  {
    var ops := DrawPass(width, height, shadow, mask, paint, stroke);
    var pre := [DrawContent(width, height)] + (if shadow.Some? then [shadow.value] else []);
    var post := if stroke.Some? then [stroke.value] else [];
    assert ops == pre + [ClearByMask(mask), Composite(paint)] + post;
    assert |pre| == if shadow.Some? then 2 else 1;
  }
}
