/** com.stelladk.arclib.ArcButton: a button cut to an ArcShape by a cached mask, with an
    optional stroke whose shape is rebuilt on every draw. */
module Button {
  import opened Geometry
  import Shape
  import opened Widget

  /** The button's state. Each corner's arc type, outer axis and radius are kept together
      as one Shape.Corner; the Java class holds them as twelve separate fields. */
  class ArcButton {
    var layoutWidth: int
    var layoutHeight: int

    var mask: Option<Mask>
    var paint: PaintState

    var arcType: int
    var outerAxis: int
    var arcRadius: real
    var topLeft: Shape.Corner
    var topRight: Shape.Corner
    var bottomLeft: Shape.Corner
    var bottomRight: Shape.Corner

    var stroke: bool
    var strokeColor: int
    var strokeWidth: real

    /** The corner parameters the setters have left, which the mask and the stroke are
        built from. */
    function Corners(): Shape.Params
      reads this`topLeft, this`topRight, this`bottomLeft, this`bottomRight
    {
      Shape.Params(topLeft, topRight, bottomLeft, bottomRight)
    }

    /** The constructors' init: every attribute read with its default. */
    constructor (attrs: ShapeAttributes, strokeAttrs: StrokeAttributes)
      ensures arcType == GetOr(attrs.arcType, Shape.NONE)
      ensures outerAxis == GetOr(attrs.outerAxis, Shape.Y_AXIS)
      ensures arcRadius == GetOr(attrs.arcRadius, Shape.UNSET)
      ensures Corners() == CornersFrom(attrs)
      ensures stroke == GetOr(strokeAttrs.stroke, false)
      ensures strokeColor == GetOr(strokeAttrs.strokeColor, WHITE)
      ensures strokeWidth == GetOr(strokeAttrs.strokeWidth, 10.0)
      ensures layoutWidth == 0 && layoutHeight == 0
      ensures mask == None && paint == DEFAULT_PAINT
    {
      var global := GlobalCorner(attrs);
      arcType, outerAxis, arcRadius := global.arc, global.outerAxis, global.radius;
      var corners := CornersFrom(attrs);
      topLeft, topRight := corners.topLeft, corners.topRight;
      bottomLeft, bottomRight := corners.bottomLeft, corners.bottomRight;

      stroke := GetOr(strokeAttrs.stroke, false);
      strokeColor := GetOr(strokeAttrs.strokeColor, WHITE);
      strokeWidth := GetOr(strokeAttrs.strokeWidth, 10.0);

      layoutWidth, layoutHeight := 0, 0;
      mask := None;
      paint := DEFAULT_PAINT;
    }

    method SetTopLeftArcType(arc: int)
      modifies this`topLeft
      ensures topLeft == old(topLeft).(arc := ClampArc(arc))
    {
      if arc == Shape.NONE { topLeft := topLeft.(arc := arc); }
      if arc <= Shape.INNER { topLeft := topLeft.(arc := Shape.INNER); }
      if arc >= Shape.OUTER { topLeft := topLeft.(arc := Shape.OUTER); }
    }

    method SetTopRightArc(arc: int)
      modifies this`topRight
      ensures topRight == old(topRight).(arc := ClampArc(arc))
    {
      if arc == Shape.NONE { topRight := topRight.(arc := arc); }
      if arc <= Shape.INNER { topRight := topRight.(arc := Shape.INNER); }
      if arc >= Shape.OUTER { topRight := topRight.(arc := Shape.OUTER); }
    }

    method SetBottomLeftArc(arc: int)
      modifies this`bottomLeft
      ensures bottomLeft == old(bottomLeft).(arc := ClampArc(arc))
    {
      if arc == Shape.NONE { bottomLeft := bottomLeft.(arc := arc); }
      if arc <= Shape.INNER { bottomLeft := bottomLeft.(arc := Shape.INNER); }
      if arc >= Shape.OUTER { bottomLeft := bottomLeft.(arc := Shape.OUTER); }
    }

    method SetBottomRightArc(arc: int)
      modifies this`bottomRight
      ensures bottomRight == old(bottomRight).(arc := ClampArc(arc))
    {
      if arc == Shape.NONE { bottomRight := bottomRight.(arc := arc); }
      if arc <= Shape.INNER { bottomRight := bottomRight.(arc := Shape.INNER); }
      if arc >= Shape.OUTER { bottomRight := bottomRight.(arc := Shape.OUTER); }
    }

    method SetTopLeftOuterAxis(axis: int)
      modifies this`topLeft
      ensures topLeft == old(topLeft).(outerAxis := ClampAxis(axis))
    {
      if axis <= Shape.X_AXIS { topLeft := topLeft.(outerAxis := Shape.X_AXIS); }
      if axis >= Shape.Y_AXIS { topLeft := topLeft.(outerAxis := Shape.Y_AXIS); }
    }

    method SetTopRightOuterAxis(axis: int)
      modifies this`topRight
      ensures topRight == old(topRight).(outerAxis := ClampAxis(axis))
    {
      if axis <= Shape.X_AXIS { topRight := topRight.(outerAxis := Shape.X_AXIS); }
      if axis >= Shape.Y_AXIS { topRight := topRight.(outerAxis := Shape.Y_AXIS); }
    }

    method SetBottomLeftOuterAxis(axis: int)
      modifies this`bottomLeft
      ensures bottomLeft == old(bottomLeft).(outerAxis := ClampAxis(axis))
    {
      if axis <= Shape.X_AXIS { bottomLeft := bottomLeft.(outerAxis := Shape.X_AXIS); }
      if axis >= Shape.Y_AXIS { bottomLeft := bottomLeft.(outerAxis := Shape.Y_AXIS); }
    }

    method SetBottomRightOuterAxis(axis: int)
      modifies this`bottomRight
      ensures bottomRight == old(bottomRight).(outerAxis := ClampAxis(axis))
    {
      if axis <= Shape.X_AXIS { bottomRight := bottomRight.(outerAxis := Shape.X_AXIS); }
      if axis >= Shape.Y_AXIS { bottomRight := bottomRight.(outerAxis := Shape.Y_AXIS); }
    }

    method SetTopLeftRadius(radius: real)
      modifies this`topLeft
      ensures topLeft == old(topLeft).(radius := radius)
    {
      topLeft := topLeft.(radius := radius);
    }

    method SetTopRightRadius(radius: real)
      modifies this`topRight
      ensures topRight == old(topRight).(radius := radius)
    {
      topRight := topRight.(radius := radius);
    }

    method SetBottomLeftRadius(radius: real)
      modifies this`bottomLeft
      ensures bottomLeft == old(bottomLeft).(radius := radius)
    {
      bottomLeft := bottomLeft.(radius := radius);
    }

    method SetBottomRightRadius(radius: real)
      modifies this`bottomRight
      ensures bottomRight == old(bottomRight).(radius := radius)
    {
      bottomRight := bottomRight.(radius := radius);
    }

    method SetStroke(stroke: bool)
      modifies this`stroke
      ensures this.stroke == stroke
    {
      this.stroke := stroke;
    }

    method SetStrokeColor(color: int)
      modifies this`strokeColor
      ensures strokeColor == color
    {
      strokeColor := color;
    }

    method SetStrokeWidth(width: real)
      modifies this`strokeWidth
      ensures strokeWidth == width
    {
      strokeWidth := width;
    }

    /** redraw: drop the cached mask. */
    method Redraw()
      modifies this`mask
      ensures mask == None
    {
      mask := None;
    }

    /** onSizeChanged: drop the cached mask, and keep the new size less the padding as
        the layout size. */
    method OnSizeChanged(w: int, h: int, paddingLeft: int, paddingTop: int, paddingRight: int, paddingBottom: int)
      modifies this`mask, this`layoutWidth, this`layoutHeight
      ensures mask == None
      ensures layoutWidth == w - (paddingLeft + paddingRight)
      ensures layoutHeight == h - (paddingTop + paddingBottom)
    {
      mask := None;

      var xpad := paddingLeft + paddingRight;
      var ypad := paddingTop + paddingBottom;
      layoutWidth := w - xpad;
      layoutHeight := h - ypad;
    }

    /** createMask: a white width by height bitmap with a new shape of the current
        corner parameters drawn into it in CLEAR mode. */
    method CreateMask(width: int, height: int) returns (m: Mask)
      ensures m == MaskOf(Corners(), width, height)
    {
      var shape := new Shape.ArcShape(topLeft.arc, topRight.arc, bottomLeft.arc, bottomRight.arc,
                                      topLeft.outerAxis, topRight.outerAxis, bottomLeft.outerAxis, bottomRight.outerAxis,
                                      topLeft.radius, topRight.radius, bottomLeft.radius, bottomRight.radius);
      var path := shape.Draw(width, height);
      m := Mask(width, height, path.segments);
    }

    /** draw: the layout size becomes the view size; the content into an offscreen bitmap
        of that size; the mask built from the current parameters only when none is cached;
        the mask cleared out of the content, the composite, and the stroke of a new shape
        of the current parameters sized to the canvas. */
    method Draw(viewWidth: int, viewHeight: int, canvasWidth: int, canvasHeight: int) returns (ops: seq<RenderOp>)
      modifies this`layoutWidth, this`layoutHeight, this`mask, this`paint
      ensures layoutWidth == viewWidth && layoutHeight == viewHeight
      ensures mask == if old(mask).Some? then old(mask) else Some(MaskOf(Corners(), viewWidth, viewHeight))
      ensures ops == DrawPass(viewWidth, viewHeight, None, mask.value, old(paint),
                              StrokeOp(stroke, Shape.Outline(Corners(), canvasWidth, canvasHeight), strokeWidth, strokeColor))
      ensures paint == if stroke then StrokePaint(strokeWidth, strokeColor) else old(paint)
    {
      layoutWidth := viewWidth;
      layoutHeight := viewHeight;

      CacheMask();
      var composite := paint;
      var strokeOp := StrokePass(canvasWidth, canvasHeight);
      ops := DrawPass(layoutWidth, layoutHeight, None, mask.value, composite, strokeOp);
    }

    /** The mask part of draw: when no mask is cached, a new one of the layout size from
        the current corner parameters. */
    method CacheMask()
      modifies this`mask
      ensures mask == if old(mask).Some? then old(mask) else Some(MaskOf(Corners(), layoutWidth, layoutHeight))
    {
      if mask.None? {
        var m := CreateMask(layoutWidth, layoutHeight);
        mask := Some(m);
      }
    }

    /** The stroke pass of draw: when the stroke is on, the button's own paint switched
        to the stroke style, width and colour (and left so), and a new shape of the
        current corner parameters, sized to the canvas, stroked with it. */
    method StrokePass(canvasWidth: int, canvasHeight: int) returns (op: Option<RenderOp>)
      modifies this`paint
      ensures paint == if stroke then StrokePaint(strokeWidth, strokeColor) else old(paint)
      ensures op == StrokeOp(stroke, Shape.Outline(Corners(), canvasWidth, canvasHeight), strokeWidth, strokeColor)
    {
      op := None;
      if stroke {
        paint := StrokePaint(strokeWidth, strokeColor);
        var shape := new Shape.ArcShape(topLeft.arc, topRight.arc, bottomLeft.arc, bottomRight.arc,
                                        topLeft.outerAxis, topRight.outerAxis, bottomLeft.outerAxis, bottomRight.outerAxis,
                                        topLeft.radius, topRight.radius, bottomLeft.radius, bottomRight.radius);
        var path := shape.Draw(canvasWidth, canvasHeight);
        op := Some(DrawStroke(path.segments, paint));
      }
    }
  }

  /** On a button with a cached mask, a corner changed by a setter reaches the stroke at
      the next draw, while the mask still clears the old corners until redraw. */
  method StrokeFollowsSetterMaskDoesNot(button: ArcButton, arc: int, viewWidth: int, viewHeight: int,
                                        canvasWidth: int, canvasHeight: int)
    returns (ops: seq<RenderOp>)
    requires button.mask.Some? && button.stroke
    modifies button
    ensures button.mask == old(button.mask)
    ensures |ops| == 4 && ops[3] ==
      DrawStroke(Shape.Outline(old(button.Corners()).(topLeft := old(button.topLeft).(arc := ClampArc(arc))),
                               canvasWidth, canvasHeight),
                 StrokePaint(button.strokeWidth, button.strokeColor))
  {
    button.SetTopLeftArcType(arc);
    ops := button.Draw(viewWidth, viewHeight, canvasWidth, canvasHeight);
    DrawPassOrder(viewWidth, viewHeight, None, button.mask.value, old(button.paint),
                  StrokeOp(button.stroke, Shape.Outline(button.Corners(), canvasWidth, canvasHeight),
                           button.strokeWidth, button.strokeColor));
  }
}
