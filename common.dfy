/** Values shared by the frame generators and the display cycle. */
module Common {

  /** The outcome of drawing a frame: the frame, or the Python exception that drawing raises. */
  datatype Result<T> = Ok(value: T) | Err(error: Error)

  datatype Error =
    | ZeroDivision        // `t/T` with `T == 0` (or `spatial/k` with `k == 0`)
    | EmptyNoiseRange     // `np.random.randint(low, high)` with `low >= high`
    | NoiseOutOfBounds    // a bound of `np.random.randint(..., dtype=np.uint8)` outside [0, 256]

  /** One pixel: the red, green and blue channels, in that order. */
  datatype Rgb<T> = Rgb(r: T, g: T, b: T)

  /** A `width x height` grid indexed `[x][y]`, as the numpy arrays of the source are. */
  type Matrix<T> = seq<seq<T>>

  /** A frame handed to the display sink: one RGB pixel per grid cell. */
  type Image = Matrix<Rgb<real>>

  predicate Shaped<T>(m: Matrix<T>, width: nat, height: nat)
  {
    |m| == width && forall i :: 0 <= i < width ==> |m[i]| == height
  }

  /** What `random.uniform(a, b)` can return: a value between the bounds, in either order. */
  predicate Between(x: real, a: real, b: real)
  {
    if a <= b then a <= x <= b else b <= x <= a
  }
}
