/**
 * The 2D drawing surface, seen only through the calls a visualizer makes on it.
 * A frame is the sequence of `Command`s issued on a `CanvasRenderingContext2D`;
 * rasterisation, transforms and trigonometry are left to the host.
 */
module Canvas {

  /** A CSS colour string such as "#00ff00". */
  type Color = string

  /** One `addColorStop(offset, color)` call on a gradient. */
  datatype Stop = Stop(offset: real, color: Color)

  /** The arguments of `createLinearGradient` / `createRadialGradient`. */
  datatype Geometry =
    | Linear(x0: real, y0: real, x1: real, y1: real)
    | Radial(x0: real, y0: real, r0: real, x1: real, y1: real, r1: real)

  /** A value assigned to `fillStyle` or `strokeStyle`. */
  datatype Paint =
    | Solid(color: Color)
    | Gradient(geometry: Geometry, stops: seq<Stop>)

  /**
   * A path coordinate. `Polar(a, d)` stands for `(Math.cos(a) * d, Math.sin(a) * d)`,
   * which the model does not evaluate.
   */
  datatype Point =
    | At(x: real, y: real)
    | Polar(angle: real, distance: real)

  datatype Command =
    | SetFillStyle(paint: Paint)
    | SetStrokeStyle(paint: Paint)
    | SetLineWidth(lineWidth: real)
    | FillRect(x: real, y: real, w: real, h: real)
    | RoundRect(x: real, y: real, w: real, h: real, radius: real)
    | BeginPath
    | MoveTo(to: Point)
    | LineTo(to: Point)
    | Fill
    | Stroke
    | Save
    | Translate(dx: real, dy: real)
    | Rotate(angle: real)
    | Restore
      /** `requestAnimationFrame(draw)`: the next frame is scheduled. */
    | RequestAnimationFrame
}
