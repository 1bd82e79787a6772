/** The artist sequence `artists()`: an endless generator that yields a patterned
    artist and then a noise artist, over and over. The random draws one pass of its
    loop makes are a `Roll` supplied by the caller, and the generator's hidden
    state is the number of items already pulled. */
module Artists {
  import opened Common
  import opened Grid
  import opened Wave
  import opened Snowy

  /** A drawer: a patterned wave, or `snowy(minval, maxval)`. */
  datatype Artist = Patterned(wave: WaveArtist) | Noise(minval: int, maxval: int)

  /** The `sumofsquares` wave's k range. */
  const SquaresMinK: real := 0.001
  const SquaresMaxK: real := 10.0

  /** The random draws of one pass of `artists()`'s loop, in the order Python makes them:
      k and T for the `sumofsquares` wave; the two weights of `random_coordsum()`, then k
      and T for its wave; the `random.choice` between the two waves (`pickSquares` for the
      first); then `random.randint(0, 128)` and `random.randint(128, 255)` for the noise. */
  datatype Roll = Roll(k1: real, period1: real, xweight: real, yweight: real, k2: real, period2: real,
                       pickSquares: bool, minval: int, maxval: int)

  /** The ranges the random number generators draw from. */
  predicate ValidRoll(r: Roll)
  {
    Between(r.k1, SquaresMinK, SquaresMaxK) && Between(r.period1, DefaultMinT, DefaultMaxT)
    && Between(r.xweight, -1.0, 1.0) && Between(r.yweight, -1.0, 1.0)
    && Between(r.k2, DefaultMinK, DefaultMaxK) && Between(r.period2, DefaultMinT, DefaultMaxT)
    && 0 <= r.minval <= 128 && 128 <= r.maxval <= 255
  }

  /** The first yield: `random.choice` between the two freshly built random waves. */
  function PatternedArtist(r: Roll): Artist
    requires ValidRoll(r)
  {
    var squares := RandomWave(SumOfSquaresField, SquaresMinK, SquaresMaxK, DefaultMinT, DefaultMaxT, r.k1, r.period1);
    var coordsum := RandomWave(CoordSumField(r.xweight, r.yweight), DefaultMinK, DefaultMaxK, DefaultMinT, DefaultMaxT, r.k2, r.period2);
    Patterned(if r.pickSquares then squares else coordsum)
  }

  /** The second yield: `snowy` with the two drawn bounds. */
  function NoiseArtist(r: Roll): Artist
  {
    Noise(r.minval, r.maxval)
  }

  /** Item n (counting from 0) of `artists()`, made from the roll of the loop pass it belongs to. */
  function ArtistAt(n: nat, r: Roll): Artist
    requires ValidRoll(r)
  {
    if n % 2 == 0 then PatternedArtist(r) else NoiseArtist(r)
  }

  /** The artists `artists()` can yield, described directly: a red-only wave with phase 0
      over `sumofsquares` with k in [1e-3, 10] or over a coordinate sum with weights in
      [-1, 1] and k in [1e-3, 1000], T in [0.2, 2] either way; or a noise artist with
      minval in [0, 128] and maxval in [128, 255]. */
  predicate FromArtists(a: Artist)
  {
    match a
    case Patterned(w) =>
      w.rgb == Rgb(1.0, 0.0, 0.0) && w.phase == 0.0 && Between(w.period, DefaultMinT, DefaultMaxT)
      && (match w.spatial
          case SumOfSquaresField => Between(w.k, SquaresMinK, SquaresMaxK)
          case CoordSumField(xw, yw) =>
            Between(xw, -1.0, 1.0) && Between(yw, -1.0, 1.0) && Between(w.k, DefaultMinK, DefaultMaxK))
    case Noise(lo, hi) => 0 <= lo <= 128 && 128 <= hi <= 255
  }

  /** Items alternate strictly, patterned first, and each is one `FromArtists` describes. */
  lemma ArtistAtAlternates(n: nat, r: Roll)
    requires ValidRoll(r)
    ensures FromArtists(ArtistAt(n, r))
    ensures ArtistAt(n, r).Patterned? <==> n % 2 == 0
  {
  }

  /** A roll that makes `ArtistAt` yield a itself (fields the item does not use are filled in). */
  function RollFor(a: Artist): (r: Roll)
    requires FromArtists(a)
    ensures ValidRoll(r)
  {
    match a
    case Patterned(w) =>
      (match w.spatial
       case SumOfSquaresField => Roll(w.k, w.period, 0.0, 0.0, 1.0, 1.0, true, 0, 128)
       case CoordSumField(xw, yw) => Roll(1.0, 1.0, xw, yw, w.k, w.period, false, 0, 128))
    case Noise(lo, hi) => Roll(1.0, 1.0, 0.0, 0.0, 1.0, 1.0, true, lo, hi)
  }

  /** Conversely, every artist `FromArtists` describes is yielded at every position of its category. */
  lemma FromArtistsReachable(a: Artist, n: nat)
    requires FromArtists(a)
    requires a.Patterned? <==> n % 2 == 0
    ensures ArtistAt(n, RollFor(a)) == a
  {
    match a
    case Patterned(w) => {
      match w.spatial
      case SumOfSquaresField =>
      case CoordSumField(xw, yw) =>
    }
    case Noise(lo, hi) =>
  }

  /** The random draw a drawer needs: a noise grid, used by noise artists only. */
  predicate NoiseReady(a: Artist, noise: Matrix<int>, width: nat, height: nat)
  {
    a.Noise? ==> NoiseFor(noise, a.minval, a.maxval, width, height)
  }

  /** `drawer(t, width, height)`. */
  function Render(a: Artist, t: real, width: nat, height: nat, sin: real -> real, noise: Matrix<int>): (r: Result<Image>)
    requires NoiseReady(a, noise, width, height)
    ensures r.Ok? ==> Shaped(r.value, width, height)
    ensures a.Noise? ==> r == SnowyFrame(a.minval, a.maxval, width, height, noise)
    ensures a.Patterned? ==> r == WaveFrame(a.wave, t, width, height, sin)
  {
    match a
    case Patterned(w) => WaveFrame(w, t, width, height, sin)
    case Noise(lo, hi) => SnowyFrame(lo, hi, width, height, noise)
  }

  /** Every artist of the sequence draws a frame, except a noise artist whose two
      bounds are 128 on a frame with pixels: its range [128, 128) is empty and drawing
      raises ValueError. */
  lemma RenderFailsOnlyOnEmptyRange(a: Artist, t: real, width: nat, height: nat, sin: real -> real, noise: Matrix<int>)
    requires FromArtists(a) && NoiseReady(a, noise, width, height)
    ensures Render(a, t, width, height, sin, noise).Err?
        <==> a == Noise(128, 128) && !ZeroSize(width, height)
    ensures Render(a, t, width, height, sin, noise).Err?
        ==> Render(a, t, width, height, sin, noise).error == EmptyNoiseRange
  {
    match a
    case Patterned(w) =>
      assert w.k > 0.0 && w.period > 0.0 by {
        match w.spatial
        case SumOfSquaresField =>
        case CoordSumField(xw, yw) =>
      }
    case Noise(lo, hi) =>
  }

  /** The empty range is reachable: some valid roll makes item 1 the failing artist,
      which raises on a frame with pixels and gives the empty image on one without. */
  lemma EmptyRangeReachable()
    ensures ValidRoll(Roll(1.0, 1.0, 0.0, 0.0, 1.0, 1.0, true, 128, 128))
    ensures ArtistAt(1, Roll(1.0, 1.0, 0.0, 0.0, 1.0, 1.0, true, 128, 128)) == Noise(128, 128)
    ensures Render(Noise(128, 128), 0.0, 1, 1, x => x, [[0]]) == Err(EmptyNoiseRange)
    ensures Render(Noise(128, 128), 0.0, 0, 500, x => x, []) == Ok([])
  {
  }

  /** The first `count` items of `artists()`, pulled with `rolls[p]` as the draws of
      loop pass p; the loop yields twice per pass. */
  method ArtistsPrefix(rolls: seq<Roll>, count: nat) returns (items: seq<Artist>)
    requires count <= 2 * |rolls|
    requires forall p :: 0 <= p < |rolls| ==> ValidRoll(rolls[p])
    ensures |items| == count
    ensures forall n :: 0 <= n < count ==> items[n] == ArtistAt(n, rolls[n / 2])
    ensures forall n :: 0 <= n < count ==> FromArtists(items[n]) && (items[n].Patterned? <==> n % 2 == 0)
    ensures forall n :: 0 < n < count ==> items[n].Patterned? != items[n - 1].Patterned?
  {
    items := [];
    while |items| < count
      invariant |items| <= count
      invariant |items| % 2 == 0 || |items| == count
      invariant forall n :: 0 <= n < |items| ==> items[n] == ArtistAt(n, rolls[n / 2])
      decreases count - |items|
    {
      var roll := rolls[|items| / 2];
      items := items + [PatternedArtist(roll)];
      if |items| == count {
        break;
      }
      items := items + [NoiseArtist(roll)];
    }
    forall n | 0 <= n < count
      ensures FromArtists(items[n]) && (items[n].Patterned? <==> n % 2 == 0)
    {
      ArtistAtAlternates(n, rolls[n / 2]);
    }
  }
}
