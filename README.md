# qlture in Dafny

qlture is a screensaver-style window. It draws procedurally generated frames and
switches between generator functions ("artists") on a timer. There are two kinds
of artist:

- patterned: a sine wave over a spatial field, weighted to red;
- noise: grey "snow" with random bounds.

A mouse click moves to the next artist. P pauses and unpauses. Q quits.

This project models the core of `qlture/qlture.py` and proves properties of it.

- `Common` (`common.dfy`): frames as `width x height` grids of RGB pixels, and the
  errors drawing can raise.
- `Grid` (`grid.dfy`): `on_grid`'s centred coordinate grid (real division, "ij"
  indexing), `sumofsquares`, and the `random_coordsum` closure. Each has a
  centring, sign, zero or bound property, proved cell by cell.
- `Wave` (`wave.dfy`): `wave` and `random_wave`. `np.sin` is a function parameter.
  A frame holds the weighted intensity of each pixel.
- `Snowy` (`snowy.dfy`): `snowy`'s drawer. The random samples are a parameter.
  Bounds that numpy rejects give an error, except on a frame with no pixels, where
  numpy returns an empty draw without checking them; otherwise every pixel is a grey
  sample in range.
- `Timing` (`timing.dfy`): `fps_to_msec` (Python's round-half-to-even), the four
  interval constants, and the interval pair `_next_artist` picks.
- `Artists` (`artists.dfy`): the endless `artists()` generator. Item n uses the
  random draws (`Roll`) of loop pass n / 2. Also the generator loop itself, as a
  method that produces the first `count` items.
- `Display` (`display.dfy`): the `Window` class. It holds the current drawer, the
  number of items pulled, the pause flag, both timer intervals, and the frames
  handed to the display sink. Each timer slot and input handler is a method. The
  class invariant says the drawer's category follows the pull count, and the
  interval pair sits on exactly one profile, flipped once per switch-timer pull.
- `Buffer` (`buffer.dfy`): the bytes `snowy` hands to `QImage` (see Findings).

Caller-supplied parameters stand in for the nondeterministic inputs:

- the wall-clock time `t`;
- `np.sin`;
- each pass's random draws, with their ranges as `ValidRoll`;
- the noise grid.

One behaviour of the code worth knowing: `artists()` can draw `minval = maxval = 128`
for `snowy`, and drawing that artist in the 500 x 500 window raises instead of producing a frame.

## Model

| member | source | states |
|---|---|---|
| Grid.OnGrid | qlture/qlture.py:26-33 | the evaluated grid has exactly `width` rows of `height` cells |
| Grid.OnGridAt | qlture/qlture.py:28-32 | cell (i, j) holds the field at X = i - width/2, Y = j - height/2, with real division and X along the first axis |
| Grid.OnGridOrigin | qlture/qlture.py:28-32 | entry (0, 0) is the field at (-width/2, -height/2) |
| Grid.SumOfSquaresNonNegative | qlture/qlture.py:42-43 | every `sumofsquares` grid value is >= 0 |
| Grid.SumOfSquaresZeroIff | qlture/qlture.py:28-43 | a `sumofsquares` grid value is 0 exactly at cell (width/2, height/2), which exists only when both sides are even |
| Grid.SumOfSquaresCentreZero | qlture/qlture.py:28-43 | with even sides the midpoint cell is exactly 0 |
| Grid.SumOfSquaresSymmetric | qlture/qlture.py:28-43 | mirroring a cell through the midpoint keeps the `sumofsquares` value |
| Grid.CoordSumAntisymmetric | qlture/qlture.py:35-40 | mirroring a cell through the midpoint negates the coordinate-sum value |
| Grid.CoordSumBounded | qlture/qlture.py:35-40 | with both weights drawn from [-1, 1], a coordinate-sum value is at most abs(X) + abs(Y) |
| Wave.WaveFrame | qlture/qlture.py:45-58 | the frame is drawn exactly when k and T are non-zero (division error otherwise) and then has shape width x height |
| Wave.WaveFrameAt | qlture/qlture.py:47-52 | channel c of pixel (i, j) is `sin(field(i - w/2, j - h/2)/k + t/T + phase)*255` times rgb[c] |
| Wave.RandomWave | qlture/qlture.py:60-63 | the wave has rgb [1, 0, 0], phase 0 and k, T within the given ranges |
| Wave.RandomWaveRedOnly | qlture/qlture.py:60-63 | with positive lower bounds every frame is drawn, green and blue are 0 in every pixel, and red is the intensity |
| Snowy.SnowyFrame | qlture/qlture.py:15-24 | drawing succeeds exactly when the frame has no pixels (numpy's empty draw skips the bound checks) or 0 <= minval < maxval <= 256; out-of-bounds bounds are reported before an empty range; every pixel then has three equal channels, is a sample in [minval, maxval), and the time is not used |
| Timing.RoundHalfEven | qlture/qlture.py:66 | the result is within 1/2 of the argument, and even on a tie |
| Timing.FpsToMsec | qlture/qlture.py:65-66 | the result is within 1/2 ms of 1000/fps |
| Timing.DrawIntervals | qlture/qlture.py:69-70 | 30 fps gives 33 ms and 12 fps gives 83 ms |
| Timing.Retime | qlture/qlture.py:104-109 | the new pair is always one of the two profiles, and it is the snow one exactly when the old draw interval was the normal one |
| Timing.RetimeFlips | qlture/qlture.py:100-109 | from either profile, both intervals move together to the other profile |
| Timing.ProfilesDistinct | qlture/qlture.py:69-72 | no pair is on both profiles, so the draw interval alone identifies the profile |
| Artists.ArtistAtAlternates | qlture/qlture.py:74-80 | item n is patterned exactly when n is even; each item has rgb [1, 0, 0] and k, T, weights and noise bounds in their drawn ranges |
| Artists.FromArtistsReachable | qlture/qlture.py:74-80 | conversely, every artist with parameters in those ranges is yielded at every position of its category by some valid draw |
| Artists.Render | qlture/qlture.py:127 | a drawn frame has the window's shape; a noise artist's frame does not depend on the time |
| Artists.RenderFailsOnlyOnEmptyRange | qlture/qlture.py:74-80 | an artist from the sequence fails to draw exactly when it is `snowy(128, 128)`, whose range is empty, and the frame has pixels |
| Artists.EmptyRangeReachable | qlture/qlture.py:80 | a valid draw makes item 1 `snowy(128, 128)`; drawing it on a 1 x 1 frame raises the empty-range error, and on a 0 x 500 frame gives the empty image |
| Artists.ArtistsPrefix | qlture/qlture.py:74-80 | the first `count` items strictly alternate, patterned first, and item n is the one loop pass n / 2 yields |
| Display.Window.constructor | qlture/qlture.py:84-98 | after start-up one item has been pulled (a patterned artist), both intervals are normal, exactly one frame has been shown, and the window is paused |
| Display.Window.NextArtist | qlture/qlture.py:100-109 | pulls exactly one item, flips both intervals together to the other profile, and keeps the invariant |
| Display.Window.Redraw | qlture/qlture.py:124-130 | while paused nothing is shown and nothing changes; otherwise the current drawer's frame is appended to the sink, or the drawing error is reported |
| Display.Window.MousePress | qlture/qlture.py:141-142 | pulls exactly one item and leaves the intervals and the pause flag unchanged |
| Display.Window.KeyPress | qlture/qlture.py:144-148 | P toggles the pause flag, Q asks to quit, any other key changes nothing |
| Display.Window.InStepIffEvenClicks | qlture/qlture.py:100-142 | the profile matches the drawer's category exactly when an even number of mouse presses has been made |
| Display.StartPauseToggle | qlture/qlture.py:93-98 | after start-up a redraw tick shows nothing; after P one tick shows exactly one more frame |
| Display.ClickDesyncs | qlture/qlture.py:141-142 | a click right after start-up shows a noise artist on the normal profile |
| Display.SwitchTwice | qlture/qlture.py:100-109 | two switch ticks after start-up give (83, 200) and then (33, 2000) |
| Buffer.SnowyBufferNotGrey | qlture/qlture.py:17-20 | with the int64 array `snowy` passes, a non-zero first sample v shows as the pixel (v, 0, 0) |
| Buffer.SnowyShownAsFrame | qlture/qlture.py:17-20 | with a one-byte-per-channel array and scanlines that need no 4-byte padding (3 * width a multiple of 4, as for 500), each displayed pixel is exactly the grey pixel `SnowyFrame` gives for its cell |

## Findings

| source | as written | input that shows it | evidently intended | confidence | as-written member | corrected member |
|---|---|---|---|---|---|---|
| qlture/qlture.py:17-20 | `arr[..., np.newaxis] * [1, 1, 1]` promotes the uint8 samples to numpy's default 64-bit integer. The array reaches `QImage(..., Format_RGB888)` without `.astype(np.uint8)`, so each channel spans eight bytes. | any frame whose first sample v is non-zero: the first displayed pixel is (v, 0, 0) and the third is (0, 0, v) | grey noise with one byte per channel, as `wave` gets by casting with `.astype(np.uint8)` | medium, not executed (assumes numpy's 64-bit default integer, as on Linux) | Buffer.SnowyBufferNotGrey | Buffer.SnowyShownAsFrame |

`Snowy.SnowyFrame` and the rest of the model use the corrected, grey frame.

## Left out

- The PyQt5 parts are not modelled:
  - `QImage`/`QPixmap`/`QLabel` construction and `setCentralWidget`; the sink is the `shown` sequence.
  - `QTimer` creation, scheduling and the `func.__dict__["timer"]` attachment; the intervals are plain fields.
  - `setGeometry`, `setWindowTitle`, `top`/`left` and the `title` property.
  - `QApplication` and `main`.
- `create_artists` and `run_on_timer` are folded into the constructor.
- When and in what order the timers fire is not modelled: each tick or event is one method call.
- `time.time()` becomes the parameter `t`. `sys.exit(0)` becomes `KeyPress` returning `quit`.
- `np.sin` becomes a function parameter. The floating-point evaluation of the sine argument is not modelled: arithmetic is on exact reals.
- The `astype(np.uint8)` cast in `wave` is left out, because casting negative or out-of-range floats is platform-dependent. Wave frames hold the uncast intensities, so the wrap-around banding is not modelled.
- The random number generators are not modelled. Their results are caller-supplied `Roll` values and noise grids, with their ranges as preconditions. The distributions are not modelled.
- Wave.WaveFrame: the model reports `k == 0` as a division error, but numpy's array division gives non-finite values there instead. Only `T == 0` raises in Python. The sequence never draws `k == 0`.
- Timing.FpsToMsec: computes `round(1/fps * 1000)` on exact rationals. A tie that floating-point rounding of `1/fps` could shift is not modelled. The two values the program uses are exact.
- Display.Window.Redraw: a drawing error is returned as `Failed` and nothing is shown. What Qt does with an exception that escapes a slot is not modelled.
- `QImage` is handed the `(width, height, 3)` arrays as rows of `width` pixels. The displayed image is the transpose of the "ij" grid, and the model does not capture that transpose. The shape is the same for the square 500 x 500 window. `Buffer` models the meaning of the snowy buffer's bytes only.
- `wave`'s default arguments (`k=1, T=1.5, phase=0, rgb=[1,1,1]`) are not modelled, because no caller relies on them: `random_wave` passes k, T and rgb, and `RandomWave` fixes the phase at 0.
