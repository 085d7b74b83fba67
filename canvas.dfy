/** Drawing commands emitted by the renderers in place of 2D canvas calls.
    A frame is the sequence of commands one tick issues, in order. */
module Canvas {

  datatype Point = Point(x: real, y: real)

  /** An RGB triple as written in the renderers' colour strings. */
  datatype Rgb = Rgb(r: int, g: int, b: int)

  datatype Command =
    /** beginPath; moveTo(from); lineTo(to); stroke */
    | Segment(from: Point, to: Point)
    /** a full ellipse (start angle 0, end angle 2 pi) rotated by `rotation` */
    | Ellipse(center: Point, rx: real, ry: real, rotation: real)
    /** a filled circle painted with a radial gradient from `intensity` at the centre to 0 at `radius` */
    | Glow(center: Point, radius: real, color: Rgb, intensity: real)

  /** Component-wise difference of two points, used to compare offsets from a centre. */
  function Offset(p: Point, origin: Point): (d: Point)
    ensures Point(origin.x + d.x, origin.y + d.y) == p
  {
    Point(p.x - origin.x, p.y - origin.y)
  }
}
