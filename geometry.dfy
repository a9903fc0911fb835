/** Points and the boundary curves a Domain is built from.
    A curve is only ever evaluated, so it is modelled by its two coordinate
    functions of the parameter t (nominally in [0, 1]). */
module Geometry {

  /** A grid or boundary point. */
  datatype Point = Point(x: real, y: real)

  /** A parametric boundary curve t |-> (x(t), y(t)). */
  datatype Curve = Curve(x: real -> real, y: real -> real) {
    /** The point of the curve at parameter t. */
    function At(t: real): Point {
      Point(x(t), y(t))
    }
  }

  /** A curve that stays at the origin; used only as a witness. */
  const Origin: Curve := Curve(t => 0.0, t => 0.0)

  /** The four boundary curves of a Domain, indexed as the sides array is:
      0 = bottom, 1 = right, 2 = top, 3 = left. */
  type Sides = s: seq<Curve> | |s| == 4 witness [Origin, Origin, Origin, Origin]

  const Bottom: nat := 0
  const Right: nat := 1
  const Top: nat := 2
  const Left: nat := 3
}
