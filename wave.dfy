/** The patterned generators: `wave` combines a spatial field with a temporal
    oscillation and a colour weighting, and `random_wave` binds randomly drawn
    parameters to it. `np.sin` is the parameter `sin`; the cast of the result to
    `uint8` is not part of this model, so frames hold the weighted intensities. */
module Wave {
  import opened Common
  import opened Grid

  /** The closure `wave(func, k, T, phase, rgb)` as a value. */
  datatype WaveArtist = WaveArtist(spatial: Spatial, k: real, period: real, phase: real, rgb: Rgb<real>)

  /** `np.sin(spatial/k + t/T + phase)*255` for one field value. */
  function Intensity(value: real, t: real, k: real, period: real, phase: real, sin: real -> real): real
    requires k != 0.0 && period != 0.0
  {
    sin(value / k + t / period + phase) * 255.0
  }

  /** `imgdata[..., np.newaxis] * rgb` for one pixel: the intensity scaled by each weight. */
  function Weigh(intensity: real, rgb: Rgb<real>): Rgb<real>
  {
    Rgb(intensity * rgb.r, intensity * rgb.g, intensity * rgb.b)
  }

  /** The intensity grid of a wave at time t. */
  function IntensityGrid(w: WaveArtist, t: real, width: nat, height: nat, sin: real -> real): (m: Matrix<real>)
    requires w.k != 0.0 && w.period != 0.0
    ensures Shaped(m, width, height)
  {
    var spatial := OnGrid(w.spatial, width, height);
    seq(width, i requires 0 <= i < width =>
      seq(height, j requires 0 <= j < height => Intensity(spatial[i][j], t, w.k, w.period, w.phase, sin)))
  }

  /** The wrapper `wave` returns, called with time t and the frame size. `t/T` raises
      ZeroDivisionError when T is 0; a zero k is reported the same way (see README). */
  function WaveFrame(w: WaveArtist, t: real, width: nat, height: nat, sin: real -> real): (r: Result<Image>)
    ensures r.Ok? <==> w.k != 0.0 && w.period != 0.0
    ensures r.Err? ==> r.error == ZeroDivision
    ensures r.Ok? ==> Shaped(r.value, width, height)
  {
    if w.k == 0.0 || w.period == 0.0 then Err(ZeroDivision)
    else
      var g := IntensityGrid(w, t, width, height, sin);
      Ok(seq(width, i requires 0 <= i < width =>
        seq(height, j requires 0 <= j < height => Weigh(g[i][j], w.rgb))))
  }

  /** Each channel c of pixel (i, j) is the intensity that the field's value at
      (i - width/2, j - height/2) gives, times rgb[c]. */
  lemma WaveFrameAt(w: WaveArtist, t: real, width: nat, height: nat, sin: real -> real, i: nat, j: nat)
    requires w.k != 0.0 && w.period != 0.0
    requires i < width && j < height
    ensures WaveFrame(w, t, width, height, sin).Ok?
    ensures var p := WaveFrame(w, t, width, height, sin).value[i][j];
            var v := Intensity(FieldAt(w.spatial, Coord(width, i), Coord(height, j)), t, w.k, w.period, w.phase, sin);
            p.r == v * w.rgb.r && p.g == v * w.rgb.g && p.b == v * w.rgb.b
  {
    OnGridAt(w.spatial, width, height, i, j);
  }

  /** `random_wave`'s default ranges for k and T. */
  const DefaultMinK: real := 0.001
  const DefaultMaxK: real := 1000.0
  const DefaultMinT: real := 0.2
  const DefaultMaxT: real := 2.0

  /** `random_wave(func, mink, maxk, minT, maxT)`, given the values `random.uniform`
      drew for k and T: a red-only wave with phase 0. */
  function RandomWave(spatial: Spatial, mink: real, maxk: real, minT: real, maxT: real, k: real, period: real): (w: WaveArtist)
    requires Between(k, mink, maxk) && Between(period, minT, maxT)
    ensures w.spatial == spatial && w.rgb == Rgb(1.0, 0.0, 0.0) && w.phase == 0.0
    ensures Between(w.k, mink, maxk) && Between(w.period, minT, maxT)
  {
    WaveArtist(spatial, k, period, 0.0, Rgb(1.0, 0.0, 0.0))
  }

  /** Every frame of a `random_wave` with positive lower bounds (as its defaults and all
      its callers use) is drawn, and is red only: green and blue are 0 in every pixel and
      red is the intensity. */
  lemma RandomWaveRedOnly(spatial: Spatial, mink: real, maxk: real, minT: real, maxT: real, k: real, period: real,
                          t: real, width: nat, height: nat, sin: real -> real, i: nat, j: nat)
    requires 0.0 < mink <= maxk && 0.0 < minT <= maxT
    requires Between(k, mink, maxk) && Between(period, minT, maxT)
    requires i < width && j < height
    ensures WaveFrame(RandomWave(spatial, mink, maxk, minT, maxT, k, period), t, width, height, sin).Ok?
    ensures var p := WaveFrame(RandomWave(spatial, mink, maxk, minT, maxT, k, period), t, width, height, sin).value[i][j];
            p.g == 0.0 && p.b == 0.0
            && p.r == Intensity(FieldAt(spatial, Coord(width, i), Coord(height, j)), t, k, period, 0.0, sin)
  {
    WaveFrameAt(RandomWave(spatial, mink, maxk, minT, maxT, k, period), t, width, height, sin, i, j);
  }
}
