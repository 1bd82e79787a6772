/** The noise generator `snowy(minval, maxval)`: one random sample per pixel,
    copied into all three channels. The samples that
    `np.random.randint(minval, maxval, size=(width, height), dtype=np.uint8)`
    draws are the parameter `noise`. */
module Snowy {
  import opened Common

  /** When `np.random.randint` with `dtype=np.uint8` accepts the bounds:
      `low` and `high` within [0, 256] and the half-open range non-empty. */
  predicate SampleableRange(minval: int, maxval: int)
  {
    0 <= minval < maxval <= 256
  }

  /** Every sample of a `width x height` draw lies in [minval, maxval). */
  predicate NoiseIn(noise: Matrix<int>, minval: int, maxval: int, width: nat, height: nat)
  {
    Shaped(noise, width, height)
    && forall i, j :: 0 <= i < width && 0 <= j < height ==> minval <= noise[i][j] < maxval
  }

  /** What the caller must supply as the random draw: a grid of the frame's shape whose
      samples are in range whenever the range can be sampled at all. */
  predicate NoiseFor(noise: Matrix<int>, minval: int, maxval: int, width: nat, height: nat)
  {
    Shaped(noise, width, height)
    && (SampleableRange(minval, maxval) ==> NoiseIn(noise, minval, maxval, width, height))
  }

  /** A draw of no samples: `np.random.randint` returns an empty array for it before
      looking at the bounds at all. */
  predicate ZeroSize(width: nat, height: nat)
  {
    width == 0 || height == 0
  }

  /** The drawer `snowy(minval, maxval)` returns; it takes no time argument, since the
      source ignores `t`. Bounds that `np.random.randint` rejects raise ValueError,
      unless the frame has no pixels. */
  function SnowyFrame(minval: int, maxval: int, width: nat, height: nat, noise: Matrix<int>): (r: Result<Image>)
    requires NoiseFor(noise, minval, maxval, width, height)
    ensures r.Ok? <==> ZeroSize(width, height) || SampleableRange(minval, maxval)
    ensures r.Err? ==> (r.error == EmptyNoiseRange <==> 0 <= minval && maxval <= 256)
    ensures r.Ok? ==> Shaped(r.value, width, height)
    ensures r.Ok? ==> forall i, j :: 0 <= i < width && 0 <= j < height ==>
              var p := r.value[i][j];
              p.r == p.g == p.b
              && minval as real <= p.r < maxval as real
              && p.r == noise[i][j] as real
  {
    if ZeroSize(width, height) then Ok(seq(width, _ => []))
    else if minval < 0 || maxval > 256 then Err(NoiseOutOfBounds)
    else if minval >= maxval then Err(EmptyNoiseRange)
    else
      Ok(seq(width, i requires 0 <= i < width =>
        seq(height, j requires 0 <= j < height =>
          var v := noise[i][j] as real; Rgb(v, v, v))))
  }
}
