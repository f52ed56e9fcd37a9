/**
 * The transient records captured at gesture start (the three refs of the editor) and the
 * pointer arithmetic that turns a pointer position into a layer edit. Pixel positions are
 * client coordinates; layer geometry is in percent of the canvas.
 */
module Gestures {
  import opened Layers

  /** The canvas element's bounding rectangle, in pixels. */
  datatype Rect = Rect(left: real, top: real, width: real, height: real)

  /** Percentages are taken against the rendered canvas, which has positive size. */
  type CanvasRect = r: Rect | r.width > 0.0 && r.height > 0.0 witness Rect(0.0, 0.0, 1.0, 1.0)

  /** `dragStartRef`: pointer position and the layer's position at pointer-down. */
  datatype DragStart = DragStart(x: real, y: real, layerX: real, layerY: real)

  /** `resizeStartRef`: pointer position and the layer's size at pointer-down. */
  datatype ResizeStart = ResizeStart(x: real, y: real, width: real, height: real)

  /**
   * `rotateStartRef`: the layer's rotation and on-screen centre at pointer-down, and the
   * pointer's angle about that centre (computed outside the model).
   */
  datatype RotateStart = RotateStart(startRotation: real, centerX: real, centerY: real, startAngle: real)

  /** Resize moves never shrink a layer below this many percent. */
  const MinSize: real := 5.0

  /** `Math.max` of two numbers: the larger one. */
  function Max(a: real, b: real): (r: real)
    ensures r >= a && r >= b && (r == a || r == b)
  {
    if a >= b then a else b
  }

  /** A pixel distance along a canvas dimension, in percent of that dimension. */
  function Percent(deltaPx: real, dimPx: real): (r: real)
    requires dimPx > 0.0
    ensures r * dimPx == deltaPx * 100.0
    ensures r >= 0.0 <==> deltaPx >= 0.0
  {
    deltaPx / dimPx * 100.0
  }

  /** Moving the pointer by `p` percent of a dimension's pixels is a change of exactly `p` percent. */
  lemma PercentOfShare(p: real, dimPx: real)
    requires dimPx > 0.0
    ensures Percent(p / 100.0 * dimPx, dimPx) == p
  {
  }

  /** A drag move: the captured position plus the pointer displacement in percent. */
  function DragEdit(ds: DragStart, clientX: real, clientY: real, rect: CanvasRect): (e: Edit)
    ensures e.MoveTo?
    ensures e.x - ds.layerX == Percent(clientX - ds.x, rect.width)
    ensures e.y - ds.layerY == Percent(clientY - ds.y, rect.height)
  {
    MoveTo(ds.layerX + Percent(clientX - ds.x, rect.width),
           ds.layerY + Percent(clientY - ds.y, rect.height))
  }

  /**
   * A resize move: one horizontal delta, in percent of the canvas width, added to both captured
   * dimensions, each floored at `MinSize`.
   */
  function ResizeEdit(rs: ResizeStart, clientX: real, rect: CanvasRect): (e: Edit)
    ensures e.SizeTo?
    ensures e.w >= MinSize && e.h >= MinSize
    ensures e.w == MinSize || e.w - rs.width == Percent(clientX - rs.x, rect.width)
    ensures e.h == MinSize || e.h - rs.height == Percent(clientX - rs.x, rect.width)
    ensures rs.width + Percent(clientX - rs.x, rect.width) >= MinSize ==>
              e.w - rs.width == Percent(clientX - rs.x, rect.width)
    ensures rs.height + Percent(clientX - rs.x, rect.width) >= MinSize ==>
              e.h - rs.height == Percent(clientX - rs.x, rect.width)
  {
    var delta := Percent(clientX - rs.x, rect.width);
    SizeTo(Max(MinSize, rs.width + delta), Max(MinSize, rs.height + delta))
  }

  /** The scale is uniform: a layer that starts square stays square. */
  lemma ResizeKeepsSquare(rs: ResizeStart, clientX: real, rect: CanvasRect)
    requires rs.width == rs.height
    ensures ResizeEdit(rs, clientX, rect).w == ResizeEdit(rs, clientX, rect).h
  {
  }

  /** A rotate move: the captured rotation plus the angle swept, in degrees, unnormalised. */
  function RotateEdit(rs: RotateStart, deltaDeg: real): (e: Edit)
    ensures e.SetField? && e.p == Rotation
    ensures e.v - rs.startRotation == deltaDeg
  {
    SetField(Rotation, rs.startRotation + deltaDeg)
  }

  /** The layer's centre in client pixels: its percentage box mapped through the canvas rectangle. */
  function LayerCenter(l: Layer, rect: CanvasRect): (c: (real, real))
    ensures c.0 == rect.left + (l.x + l.width / 2.0) / 100.0 * rect.width
    ensures c.1 == rect.top + (l.y + l.height / 2.0) / 100.0 * rect.height
  {
    var lLeft := l.x / 100.0 * rect.width;
    var lTop := l.y / 100.0 * rect.height;
    var lWidth := l.width / 100.0 * rect.width;
    var lHeight := l.height / 100.0 * rect.height;
    (rect.left + lLeft + lWidth / 2.0, rect.top + lTop + lHeight / 2.0)
  }
}
