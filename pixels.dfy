/** Per-pixel values of the product's rasters, stored row-major. */
module Pixels {

  /** A floating-point pixel: NaN or a finite number. */
  datatype Float = NaN | Num(x: real)

  /** The `(rows, cols)` shape of a raster. */
  datatype Shape = Shape(rows: nat, cols: nat)

  function Size(shape: Shape): nat
  {
    shape.rows * shape.cols
  }

  /** `np.full(shape, v)`: every pixel holds `v`. */
  function Full(shape: Shape, v: Float): (r: seq<Float>)
    ensures |r| == Size(shape)
    ensures forall i | 0 <= i < |r| :: r[i] == v
  {
    seq(Size(shape), _ => v)
  }

  /** `np.zeros(shape)`. */
  function Zeros(shape: Shape): (r: seq<Float>)
    ensures |r| == Size(shape)
    ensures forall i | 0 <= i < |r| :: r[i] == Num(0.0)
  {
    Full(shape, Num(0.0))
  }

  /** `a * k` on one pixel: NaN stays NaN. */
  function Times(a: Float, k: real): Float
  {
    match a
    case NaN => NaN
    case Num(x) => Num(x * k)
  }
}
