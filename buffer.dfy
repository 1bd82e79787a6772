/** The bytes `snowy`'s drawer hands to `QImage(arr, w, h, QImage.Format_RGB888)`,
    which reads them as consecutive (red, green, blue) byte triples.

    `np.random.randint(..., dtype=np.uint8)` gives one byte per sample, but
    `arr[..., np.newaxis] * [1, 1, 1]` multiplies by a list of Python ints, which
    numpy promotes to its default 64-bit integer, so every channel of the array
    passed on occupies eight little-endian bytes. `wave` casts with
    `.astype(np.uint8)` before building its image; `snowy` does not. */
module Buffer {
  import opened Common
  import opened Snowy

  /** A C-ordered (row-major) `width x height` array laid out as one sequence. */
  function RowMajor(m: Matrix<int>): seq<int>
  {
    if m == [] then [] else m[0] + RowMajor(m[1..])
  }

  lemma {:induction false} RowMajorLength(m: Matrix<int>, width: nat, height: nat)
    requires Shaped(m, width, height)
    ensures |RowMajor(m)| == width * height
  {
    if m != [] {
      assert Shaped(m[1..], width - 1, height);
      RowMajorLength(m[1..], width - 1, height);
    }
  }

  /** Cell (i, j) sits at offset i * height + j of the C-ordered layout. */
  lemma {:induction false} RowMajorAt(m: Matrix<int>, width: nat, height: nat, i: nat, j: nat)
    requires Shaped(m, width, height) && i < width && j < height
    ensures |RowMajor(m)| == width * height
    ensures i * height + j < width * height
    ensures RowMajor(m)[i * height + j] == m[i][j]
  {
    RowMajorLength(m, width, height);
    if i > 0 {
      assert Shaped(m[1..], width - 1, height);
      RowMajorAt(m[1..], width - 1, height, i - 1, j);
      assert i * height + j == height + ((i - 1) * height + j);
    }
  }

  /** Each sample as three one-byte channels: the `uint8` layout `QImage` expects. */
  function Uint8Channels(s: seq<int>): (b: seq<int>)
    ensures |b| == 3 * |s|
  {
    if s == [] then [] else [s[0], s[0], s[0]] + Uint8Channels(s[1..])
  }

  /** The `count` low little-endian bytes of v in two's complement. */
  function LittleEndian(v: int, count: nat): (b: seq<int>)
    ensures |b| == count
    decreases count
  {
    if count == 0 then [] else [v % 256] + LittleEndian(v / 256, count - 1)
  }

  /** Each sample as three eight-byte (`int64`) channels: the array `snowy` passes. */
  function Int64Channels(s: seq<int>): (b: seq<int>)
    ensures |b| == 24 * |s|
  {
    if s == [] then [] else Int64Pixel(s[0]) + Int64Channels(s[1..])
  }

  /** One sample's three int64 channels. */
  function Int64Pixel(v: int): (b: seq<int>)
    ensures |b| == 24
  {
    var e := LittleEndian(v, 8);
    e + e + e
  }

  /** `QImage(data, w, h, format)` without a bytes-per-line argument starts every
      scanline on a 4-byte boundary. With three bytes per pixel the scanlines of a
      `width`-pixel image follow each other with no padding exactly when 3 * width is
      a multiple of 4, as for the 500-pixel window. */
  predicate UnpaddedRows(width: nat)
  {
    (3 * width) % 4 == 0
  }

  /** Pixel n of an RGB888 image over the byte buffer b, counting pixels across
      scanlines: its offset is 3 * n only when the rows are unpadded. */
  function Rgb888At(b: seq<int>, n: nat): Rgb<int>
    requires 3 * n + 2 < |b|
  {
    Rgb(b[3 * n], b[3 * n + 1], b[3 * n + 2])
  }

  lemma {:induction false} Uint8ChannelsAt(s: seq<int>, n: nat)
    requires n < |s|
    ensures Rgb888At(Uint8Channels(s), n) == Rgb(s[n], s[n], s[n])
  {
    if n > 0 {
      Uint8ChannelsAt(s[1..], n - 1);
      assert Uint8Channels(s) == [s[0], s[0], s[0]] + Uint8Channels(s[1..]);
    }
  }

  /** With the `uint8` layout and unpadded rows, displayed pixel i * height + j is the
      grey of sample (i, j). */
  lemma Uint8FrameGrey(noise: Matrix<int>, width: nat, height: nat, i: nat, j: nat)
    requires Shaped(noise, width, height) && i < width && j < height
    requires UnpaddedRows(width)
    ensures 3 * (i * height + j) + 2 < 3 * |RowMajor(noise)|
    ensures var v := noise[i][j];
            Rgb888At(Uint8Channels(RowMajor(noise)), i * height + j) == Rgb(v, v, v)
  {
    RowMajorAt(noise, width, height, i, j);
    Uint8ChannelsAt(RowMajor(noise), i * height + j);
  }

  lemma {:induction false} ZeroLittleEndian(count: nat)
    ensures forall k :: 0 <= k < count ==> LittleEndian(0, count)[k] == 0
  {
    if count > 0 {
      ZeroLittleEndian(count - 1);
    }
  }

  /** A byte-sized value is its own low byte, followed by zero bytes. */
  lemma SmallLittleEndian(v: int, count: nat)
    requires 0 <= v < 256 && count > 0
    ensures LittleEndian(v, count)[0] == v
    ensures forall k :: 1 <= k < count ==> LittleEndian(v, count)[k] == 0
  {
    ZeroLittleEndian(count - 1);
  }

  lemma ByteAsInt64(v: int)
    requires 0 <= v < 256
    ensures LittleEndian(v, 8) == [v, 0, 0, 0, 0, 0, 0, 0]
  {
    SmallLittleEndian(v, 8);
  }

  /** The bytes of a byte-sized sample's int64 pixel that RGB888 pixels 0 and 2 read. */
  lemma Int64PixelOfByte(v: int)
    requires 0 <= v < 256
    ensures var p := Int64Pixel(v);
            p[0] == v && p[1] == 0 && p[2] == 0 && p[6] == 0 && p[7] == 0 && p[8] == v
  {
    ByteAsInt64(v);
  }

  /** With the layout `snowy` actually passes, a sample v > 0 shows as the pure red pixel
      (v, 0, 0), and two pixels on as the pure blue pixel (0, 0, v): not grey. */
  lemma Int64ChannelsNotGrey(s: seq<int>)
    requires |s| > 0 && 0 < s[0] < 256
    ensures Rgb888At(Int64Channels(s), 0) == Rgb(s[0], 0, 0)
    ensures Rgb888At(Int64Channels(s), 2) == Rgb(0, 0, s[0])
  {
    var p := Int64Pixel(s[0]);
    Int64PixelOfByte(s[0]);
    assert Int64Channels(s) == p + Int64Channels(s[1..]);
  }

  /** `snowy` as written: whenever the first sample of a frame is not 0, the first
      displayed pixel is not grey. */
  lemma SnowyBufferNotGrey(noise: Matrix<int>, width: nat, height: nat)
    requires Shaped(noise, width, height) && width > 0 && height > 0
    requires 0 < noise[0][0] < 256
    ensures 24 * width * height == |Int64Channels(RowMajor(noise))|
    ensures var v := noise[0][0];
            Rgb888At(Int64Channels(RowMajor(noise)), 0) == Rgb(v, 0, 0) != Rgb(v, v, v)
  {
    RowMajorAt(noise, width, height, 0, 0);
    Int64ChannelsNotGrey(RowMajor(noise));
  }

  /** With the `uint8` layout and unpadded rows, the image `QImage` shows is exactly the
      frame `SnowyFrame` describes: displayed pixel i * height + j carries the grey of
      cell (i, j). */
  lemma SnowyShownAsFrame(minval: int, maxval: int, width: nat, height: nat, noise: Matrix<int>, i: nat, j: nat)
    requires NoiseFor(noise, minval, maxval, width, height) && SampleableRange(minval, maxval)
    requires i < width && j < height
    requires UnpaddedRows(width)
    ensures SnowyFrame(minval, maxval, width, height, noise).Ok?
    ensures 3 * (i * height + j) + 2 < |Uint8Channels(RowMajor(noise))|
    ensures var p := Rgb888At(Uint8Channels(RowMajor(noise)), i * height + j);
            var q := SnowyFrame(minval, maxval, width, height, noise).value[i][j];
            p.r as real == q.r && p.g as real == q.g && p.b as real == q.b
  {
    Uint8FrameGrey(noise, width, height, i, j);
  }
}
