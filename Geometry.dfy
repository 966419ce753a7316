/** Two-dimensional points and vectors over exact reals.
    The C++ `Point` and `Vector` types both carry a float x and y; here they are
    one datatype, `Vec`, and `Point`/`Vector` are names for it. */
module Geometry {

  type NonNegReal = r: real | r >= 0.0

  datatype Vec = Vec(x: real, y: real)

  type Point = Vec
  type Vector = Vec

  const ZERO: Vec := Vec(0.0, 0.0)

  function Add(a: Vec, b: Vec): Vec {
    Vec(a.x + b.x, a.y + b.y)
  }

  function Sub(a: Vec, b: Vec): Vec {
    Vec(a.x - b.x, a.y - b.y)
  }

  function Scale(k: real, a: Vec): Vec {
    Vec(k * a.x, k * a.y)
  }

  function Div(a: Vec, k: real): Vec
    requires k != 0.0
  {
    Vec(a.x / k, a.y / k)
  }

  /** `std::min(a, b)`: yields `b` only when it is strictly smaller. */
  function Min(a: real, b: real): real {
    if b < a then b else a
  }

  /** `std::abs` on a float. */
  function Abs(a: real): real {
    if a < 0.0 then -a else a
  }

  /** The axis-aligned box with corners `lo` and `hi` contains `p`. */
  predicate InBox(p: Point, lo: Point, hi: Point) {
    lo.x <= p.x <= hi.x && lo.y <= p.y <= hi.y
  }
}
