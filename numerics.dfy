/** The numeric library calls the core uses, kept abstract. */
module Numerics {

  /** The float value of `math.pi`, as an exact rational. */
  const Pi: real := 3.141592653589793

  /** A standard deviation: the only fact assumed about `numpy.std` is that it
      is never negative. */
  type StdDev = f: seq<real> -> real | forall s :: f(s) >= 0.0
    witness (s: seq<real>) => 0.0

  /** An interpolant builder: given the sample abscissae and ordinates it
      returns the interpolating function. */
  type Interpolator = (seq<real>, seq<real>) -> (real -> real)

  /** The library functions the geometry relies on:
      `math.sqrt`, `math.cos`, `math.sin`, `numpy.std`,
      `scipy.interpolate.interp1d(kind="cubic")` and
      `scipy.interpolate.PchipInterpolator`. */
  datatype Env = Env(
    sqrt: real -> real,
    cos: real -> real,
    sin: real -> real,
    std: StdDev,
    cubic: Interpolator,
    pchip: Interpolator)
}
