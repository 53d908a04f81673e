/** The absent-or-present value that stands in for JavaScript's `null`. */
module Options {
  datatype Option<+T> = None | Some(value: T)
}

/** Positions on the stage and the forward-motion rule shared by ships, bullets and the turret muzzle. */
module Motion {

  /** A point on the stage, in pixels; y grows downwards. */
  datatype Point = Point(x: real, y: real)

  /**
   * The sine and cosine the game calls (`Math.sin`, `Math.cos`). Floating-point
   * trigonometry is not modelled: both are parameters of every operation that moves
   * something, and nothing is assumed about them.
   */
  datatype Trig = Trig(sin: real -> real, cos: real -> real)

  /**
   * `p` moved by `distance` along `heading`. Heading 0 points up the screen,
   * so the x coordinate grows with the sine and the y coordinate shrinks with the cosine.
   */
  function Forward(p: Point, heading: real, distance: real, trig: Trig): Point
  {
    Point(p.x + trig.sin(heading) * distance, p.y - trig.cos(heading) * distance)
  }
}
