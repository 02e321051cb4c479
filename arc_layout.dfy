/** com.stelladk.arclib.ArcLayout: a frame layout whose content is cut to an ArcShape by a
    cached mask, with an optional shadow and stroke of the same shape. */
module Layout {
  import opened Geometry
  import Shape
  import opened Widget

  /** The layout's state. Each corner's arc type, outer axis and radius are kept together
      as one Shape.Corner; the Java class holds them as twelve separate fields. */
  class ArcLayout {
    var layoutWidth: int
    var layoutHeight: int

    var mask: Option<Mask>
    var shape: Shape.ArcShape
    var paint: PaintState

    var arcType: int
    var outerAxis: int
    var arcRadius: real
    var topLeft: Shape.Corner
    var topRight: Shape.Corner
    var bottomLeft: Shape.Corner
    var bottomRight: Shape.Corner

    var stroke: bool
    var strokeColor: int
    var strokeWidth: real

    var shadow: bool
    var shadowColor: int
    var elevation: real

    /** The corner parameters the setters have left, which the next shape is built from. */
    function Corners(): Shape.Params
      reads this`topLeft, this`topRight, this`bottomLeft, this`bottomRight
    {
      Shape.Params(topLeft, topRight, bottomLeft, bottomRight)
    }

    /** A cached mask is the mask of the current shape at the current layout size. */
    ghost predicate Valid()
      reads this`mask, this`shape, this`layoutWidth, this`layoutHeight
    {
      mask.Some? ==> mask.value == MaskOf(shape.params, layoutWidth, layoutHeight)
    }

    /** The constructors' init: every attribute read with its default, then the shape
        built from the corners. */
    constructor (attrs: ShapeAttributes, strokeAttrs: StrokeAttributes, shadowAttrs: ShadowAttributes)
      ensures arcType == GetOr(attrs.arcType, Shape.NONE)
      ensures outerAxis == GetOr(attrs.outerAxis, Shape.Y_AXIS)
      ensures arcRadius == GetOr(attrs.arcRadius, Shape.UNSET)
      ensures Corners() == CornersFrom(attrs)
      ensures stroke == GetOr(strokeAttrs.stroke, false)
      ensures strokeColor == GetOr(strokeAttrs.strokeColor, WHITE)
      ensures strokeWidth == GetOr(strokeAttrs.strokeWidth, 10.0)
      ensures shadow == GetOr(shadowAttrs.shadow, false)
      ensures shadowColor == GetOr(shadowAttrs.shadowColor, GRAY)
      ensures elevation == GetOr(shadowAttrs.elevation, 0.0)
      ensures layoutWidth == 0 && layoutHeight == 0
      ensures mask == None && paint == DEFAULT_PAINT
      ensures fresh(shape) && shape.params == Corners()
      ensures Valid()
    {
      var global := GlobalCorner(attrs);
      arcType, outerAxis, arcRadius := global.arc, global.outerAxis, global.radius;
      var corners := CornersFrom(attrs);
      topLeft, topRight := corners.topLeft, corners.topRight;
      bottomLeft, bottomRight := corners.bottomLeft, corners.bottomRight;

      stroke := GetOr(strokeAttrs.stroke, false);
      strokeColor := GetOr(strokeAttrs.strokeColor, WHITE);
      strokeWidth := GetOr(strokeAttrs.strokeWidth, 10.0);

      shadow := GetOr(shadowAttrs.shadow, false);
      shadowColor := GetOr(shadowAttrs.shadowColor, GRAY);
      elevation := GetOr(shadowAttrs.elevation, 0.0);

      layoutWidth, layoutHeight := 0, 0;
      mask := None;
      paint := DEFAULT_PAINT;
      shape := new Shape.ArcShape(corners.topLeft.arc, corners.topRight.arc, corners.bottomLeft.arc, corners.bottomRight.arc,
                                  corners.topLeft.outerAxis, corners.topRight.outerAxis,
                                  corners.bottomLeft.outerAxis, corners.bottomRight.outerAxis,
                                  corners.topLeft.radius, corners.topRight.radius,
                                  corners.bottomLeft.radius, corners.bottomRight.radius);
    }

    method SetTopLeftArcType(arc: int)
      modifies this`topLeft
      ensures topLeft == old(topLeft).(arc := ClampArc(arc))
    {
      if arc == Shape.NONE { topLeft := topLeft.(arc := arc); }
      if arc <= Shape.INNER { topLeft := topLeft.(arc := Shape.INNER); }
      if arc >= Shape.OUTER { topLeft := topLeft.(arc := Shape.OUTER); }
    }

    method SetTopRightArc(arc: int)
      modifies this`topRight
      ensures topRight == old(topRight).(arc := ClampArc(arc))
    {
      if arc == Shape.NONE { topRight := topRight.(arc := arc); }
      if arc <= Shape.INNER { topRight := topRight.(arc := Shape.INNER); }
      if arc >= Shape.OUTER { topRight := topRight.(arc := Shape.OUTER); }
    }

    method SetBottomLeftArc(arc: int)
      modifies this`bottomLeft
      ensures bottomLeft == old(bottomLeft).(arc := ClampArc(arc))
    {
      if arc == Shape.NONE { bottomLeft := bottomLeft.(arc := arc); }
      if arc <= Shape.INNER { bottomLeft := bottomLeft.(arc := Shape.INNER); }
      if arc >= Shape.OUTER { bottomLeft := bottomLeft.(arc := Shape.OUTER); }
    }

    method SetBottomRightArc(arc: int)
      modifies this`bottomRight
      ensures bottomRight == old(bottomRight).(arc := ClampArc(arc))
    {
      if arc == Shape.NONE { bottomRight := bottomRight.(arc := arc); }
      if arc <= Shape.INNER { bottomRight := bottomRight.(arc := Shape.INNER); }
      if arc >= Shape.OUTER { bottomRight := bottomRight.(arc := Shape.OUTER); }
    }

    method SetTopLeftOuterAxis(axis: int)
      modifies this`topLeft
      ensures topLeft == old(topLeft).(outerAxis := ClampAxis(axis))
    {
      if axis <= Shape.X_AXIS { topLeft := topLeft.(outerAxis := Shape.X_AXIS); }
      if axis >= Shape.Y_AXIS { topLeft := topLeft.(outerAxis := Shape.Y_AXIS); }
    }

    method SetTopRightOuterAxis(axis: int)
      modifies this`topRight
      ensures topRight == old(topRight).(outerAxis := ClampAxis(axis))
    {
      if axis <= Shape.X_AXIS { topRight := topRight.(outerAxis := Shape.X_AXIS); }
      if axis >= Shape.Y_AXIS { topRight := topRight.(outerAxis := Shape.Y_AXIS); }
    }

    method SetBottomLeftOuterAxis(axis: int)
      modifies this`bottomLeft
      ensures bottomLeft == old(bottomLeft).(outerAxis := ClampAxis(axis))
    {
      if axis <= Shape.X_AXIS { bottomLeft := bottomLeft.(outerAxis := Shape.X_AXIS); }
      if axis >= Shape.Y_AXIS { bottomLeft := bottomLeft.(outerAxis := Shape.Y_AXIS); }
    }

    method SetBottomRightOuterAxis(axis: int)
      modifies this`bottomRight
      ensures bottomRight == old(bottomRight).(outerAxis := ClampAxis(axis))
    {
      if axis <= Shape.X_AXIS { bottomRight := bottomRight.(outerAxis := Shape.X_AXIS); }
      if axis >= Shape.Y_AXIS { bottomRight := bottomRight.(outerAxis := Shape.Y_AXIS); }
    }

    method SetTopLeftRadius(radius: real)
      modifies this`topLeft
      ensures topLeft == old(topLeft).(radius := radius)
    {
      topLeft := topLeft.(radius := radius);
    }

    method SetTopRightRadius(radius: real)
      modifies this`topRight
      ensures topRight == old(topRight).(radius := radius)
    {
      topRight := topRight.(radius := radius);
    }

    method SetBottomLeftRadius(radius: real)
      modifies this`bottomLeft
      ensures bottomLeft == old(bottomLeft).(radius := radius)
    {
      bottomLeft := bottomLeft.(radius := radius);
    }

    method SetBottomRightRadius(radius: real)
      modifies this`bottomRight
      ensures bottomRight == old(bottomRight).(radius := radius)
    {
      bottomRight := bottomRight.(radius := radius);
    }

    method SetStroke(stroke: bool)
      modifies this`stroke
      ensures this.stroke == stroke
    {
      this.stroke := stroke;
    }

    method SetStrokeColor(color: int)
      modifies this`strokeColor
      ensures strokeColor == color
    {
      strokeColor := color;
    }

    method SetStrokeWidth(width: real)
      modifies this`strokeWidth
      ensures strokeWidth == width
    {
      strokeWidth := width;
    }

    method SetShadow(shadow: bool)
      modifies this`shadow
      ensures this.shadow == shadow
    {
      this.shadow := shadow;
    }

    method SetElevation(elevation: real)
      modifies this`elevation
      ensures this.elevation == elevation
    {
      this.elevation := elevation;
    }

    method SetShadowColor(color: int)
      modifies this`shadowColor
      ensures shadowColor == color
    {
      shadowColor := color;
    }

    /** redraw: drop the cached mask, so that the next draw rebuilds the shape. */
    method Redraw()
      modifies this`mask
      ensures mask == None && Valid()
    {
      mask := None;
    }

    /** onSizeChanged: drop the cached mask, and keep the new size less the padding as
        the layout size. */
    method OnSizeChanged(w: int, h: int, paddingLeft: int, paddingTop: int, paddingRight: int, paddingBottom: int)
      modifies this`mask, this`layoutWidth, this`layoutHeight
      ensures mask == None && Valid()
      ensures layoutWidth == w - (paddingLeft + paddingRight)
      ensures layoutHeight == h - (paddingTop + paddingBottom)
    {
      mask := None;

      var xpad := paddingLeft + paddingRight;
      var ypad := paddingTop + paddingBottom;
      layoutWidth := w - xpad;
      layoutHeight := h - ypad;
    }

    /** createShape: a new shape from the current corner parameters. */
    method CreateShape()
      modifies this`shape
      ensures fresh(shape) && shape.params == Corners()
    {
      shape := new Shape.ArcShape(topLeft.arc, topRight.arc, bottomLeft.arc, bottomRight.arc,
                                  topLeft.outerAxis, topRight.outerAxis, bottomLeft.outerAxis, bottomRight.outerAxis,
                                  topLeft.radius, topRight.radius, bottomLeft.radius, bottomRight.radius);
    }

    /** createMask: a white width by height bitmap with the shape drawn into it in CLEAR
        mode. Drawing the shape sizes it to the mask. */
    method CreateMask(width: int, height: int) returns (m: Mask)
      modifies shape`frame
      ensures m == MaskOf(shape.params, width, height)
      ensures shape.frame == Shape.Factorize(shape.params, width, height)
    {
      var path := shape.Draw(width, height);
      m := Mask(width, height, path.segments);
    }

    /** draw: the content into an offscreen bitmap of the layout size; the shape and the
        mask rebuilt from the current parameters only when no mask is cached; then the
        shadow, the mask cleared out of the content, the composite and the stroke, the
        shadow and the stroke both taken from the cached shape sized to the canvas. */
    method Draw(canvasWidth: int, canvasHeight: int) returns (ops: seq<RenderOp>)
      requires Valid()
      modifies this`mask, this`shape, this`paint, shape`frame
      ensures Valid() && mask.Some?
      ensures old(mask).Some? ==> mask == old(mask) && shape == old(shape)
      ensures old(mask).None? ==> fresh(shape) && shape.params == Corners()
      ensures ops == DrawPass(layoutWidth, layoutHeight,
                              ShadowOp(shadow, Shape.Outline(shape.params, canvasWidth, canvasHeight), elevation, shadowColor),
                              mask.value, old(paint),
                              StrokeOp(stroke, Shape.Outline(shape.params, canvasWidth, canvasHeight), strokeWidth, strokeColor))
      ensures paint == if stroke then StrokePaint(strokeWidth, strokeColor) else old(paint)
      ensures shape.frame ==
        if shadow || stroke then Shape.Factorize(shape.params, canvasWidth, canvasHeight)
        else if old(mask).None? then Shape.Factorize(shape.params, layoutWidth, layoutHeight)
        else old(shape.frame)
    {
      CacheMask();
      var shadowOp := ShadowPass(canvasWidth, canvasHeight);
      var composite := paint;
      var strokeOp := StrokePass(canvasWidth, canvasHeight);
      ops := DrawPass(layoutWidth, layoutHeight, shadowOp, mask.value, composite, strokeOp);
    }

    /** The start of draw: when no mask is cached, a new shape from the current corner
        parameters and a new mask of the layout size drawn from it. */
    method CacheMask()
      requires Valid()
      modifies this`mask, this`shape, shape`frame
      ensures Valid() && mask.Some?
      ensures old(mask).Some? ==> mask == old(mask) && shape == old(shape) && shape.frame == old(shape.frame)
      ensures old(mask).None? ==>
        fresh(shape) && shape.params == Corners() &&
        shape.frame == Shape.Factorize(shape.params, layoutWidth, layoutHeight)
    {
      if mask.None? {
        CreateShape();
        var m := CreateMask(layoutWidth, layoutHeight);
        mask := Some(m);
      }
    }

    /** The shadow pass of draw: when the shadow is on, the shape sized to the canvas and
        filled with a shadow layer of radius 20, horizontal offset 0, vertical offset the
        elevation, in the shadow colour. */
    method ShadowPass(canvasWidth: int, canvasHeight: int) returns (op: Option<RenderOp>)
      modifies shape`frame
      ensures op == ShadowOp(shadow, Shape.Outline(shape.params, canvasWidth, canvasHeight), elevation, shadowColor)
      ensures shape.frame == if shadow then Shape.Factorize(shape.params, canvasWidth, canvasHeight) else old(shape.frame)
    {
      op := None;
      if shadow {
        var path := shape.Draw(canvasWidth, canvasHeight);
        op := Some(DrawShadow(path.segments, SHADOW_RADIUS, SHADOW_DX, elevation, shadowColor));
      }
    }

    /** The stroke pass of draw: when the stroke is on, the layout's own paint switched to
        the stroke style, width and colour (and left so), and the shape sized to the canvas
        stroked with it. */
    method StrokePass(canvasWidth: int, canvasHeight: int) returns (op: Option<RenderOp>)
      modifies this`paint, shape`frame
      ensures paint == if stroke then StrokePaint(strokeWidth, strokeColor) else old(paint)
      ensures op == StrokeOp(stroke, Shape.Outline(shape.params, canvasWidth, canvasHeight), strokeWidth, strokeColor)
      ensures shape.frame == if stroke then Shape.Factorize(shape.params, canvasWidth, canvasHeight) else old(shape.frame)
    {
      op := None;
      if stroke {
        paint := StrokePaint(strokeWidth, strokeColor);
        var path := shape.Draw(canvasWidth, canvasHeight);
        op := Some(DrawStroke(path.segments, paint));
      }
    }
  }

  /** A draw while a mask is cached keeps that mask and the shape it was drawn from, whatever
      the corner parameters are by now. */
  method DrawWithCache(layout: ArcLayout, canvasWidth: int, canvasHeight: int) returns (m: Mask)
    requires layout.Valid() && layout.mask.Some?
    modifies layout`mask, layout`shape, layout`paint, layout.shape`frame
    ensures layout.Valid() && layout.mask == old(layout.mask) && layout.shape == old(layout.shape)
    ensures m == old(layout.mask.value)
    ensures layout.Corners() == old(layout.Corners())
  {
    var ops := layout.Draw(canvasWidth, canvasHeight);
    m := layout.mask.value;
  }

  /** Redraw followed by a draw: the mask is rebuilt from the current corner parameters at
      the layout size. */
  method DrawAfterRedraw(layout: ArcLayout, canvasWidth: int, canvasHeight: int) returns (m: Mask)
    modifies layout`mask, layout`shape, layout`paint, layout.shape`frame
    ensures layout.Valid() && layout.mask == Some(m)
    ensures layout.Corners() == old(layout.Corners())
    ensures m == MaskOf(layout.Corners(), layout.layoutWidth, layout.layoutHeight)
  {
    layout.Redraw();
    var ops := layout.Draw(canvasWidth, canvasHeight);
    m := layout.mask.value;
  }

  /** A corner changed by a setter is not drawn until redraw: the draw right after the
      setter still clears the cached mask of the old corners, and the draw after redraw
      clears a mask of the new ones. */
  method SetterNeedsRedraw(layout: ArcLayout, arc: int, canvasWidth: int, canvasHeight: int)
    returns (before: Mask, after: Mask)
    requires layout.Valid() && layout.mask.Some?
    modifies layout, layout.shape
    ensures before == old(layout.mask.value)
    ensures after == MaskOf(old(layout.Corners()).(topLeft := old(layout.topLeft).(arc := ClampArc(arc))),
                            layout.layoutWidth, layout.layoutHeight)
    ensures layout.layoutWidth == old(layout.layoutWidth) && layout.layoutHeight == old(layout.layoutHeight)
  {
    layout.SetTopLeftArcType(arc);
    ghost var corners := layout.Corners();
    assert corners == old(layout.Corners()).(topLeft := old(layout.topLeft).(arc := ClampArc(arc)));
    before := DrawWithCache(layout, canvasWidth, canvasHeight);
    after := DrawAfterRedraw(layout, canvasWidth, canvasHeight);
    assert layout.Corners() == corners;
  }
}
