/** The two timer profiles of the display cycle: `fps_to_msec`, the four `*_DT`
    intervals (milliseconds), and the interval choice `_next_artist` makes. */
module Timing {

  /** Python's `round` on a number: the nearest integer, ties to the even one. */
  function RoundHalfEven(x: real): (r: int)
    ensures x - 0.5 <= r as real <= x + 0.5
    ensures (r as real == x - 0.5 || r as real == x + 0.5) ==> r % 2 == 0
  {
    var f := x.Floor;
    var d := x - f as real;
    if d < 0.5 then f
    else if d > 0.5 then f + 1
    else if f % 2 == 0 then f else f + 1
  }

  /** `fps_to_msec(fps)`: `round(1/fps * 1000)`, the frame period in whole milliseconds
      (computed on exact rationals). `1/fps` raises ZeroDivisionError for 0. */
  function FpsToMsec(fps: int): (ms: int)
    requires fps != 0
    ensures 1000.0 / fps as real - 0.5 <= ms as real <= 1000.0 / fps as real + 0.5
  {
    RoundHalfEven(1.0 / fps as real * 1000.0)
  }

  const NormalDrawDt: int := FpsToMsec(30)
  const SnowDrawDt: int := FpsToMsec(12)
  const NormalSwitchDt: int := 2000
  const SnowSwitchDt: int := 200

  /** 30 frames per second is 33 ms and 12 frames per second is 83 ms; the two
      differ, so the draw interval alone tells the profiles apart. */
  lemma DrawIntervals()
    ensures NormalDrawDt == 33 && SnowDrawDt == 83
  {
    assert 1.0 / 30 as real * 1000.0 == 100.0 / 3.0;
    assert (100.0 / 3.0).Floor == 33;
    assert 1.0 / 12 as real * 1000.0 == 250.0 / 3.0;
    assert (250.0 / 3.0).Floor == 83;
  }

  /** "normal" (patterned artists) and "snow" (noise artists). */
  datatype Profile = Normal | Snow

  function DrawDt(p: Profile): int
  {
    match p
    case Normal => NormalDrawDt
    case Snow => SnowDrawDt
  }

  function SwitchDt(p: Profile): int
  {
    match p
    case Normal => NormalSwitchDt
    case Snow => SnowSwitchDt
  }

  /** The (draw, switch) interval pair is the one of profile p. */
  predicate OnProfile(draw: int, switch: int, p: Profile)
  {
    draw == DrawDt(p) && switch == SwitchDt(p)
  }

  function Flip(p: Profile): Profile
  {
    match p
    case Normal => Snow
    case Snow => Normal
  }

  /** The intervals `_next_artist` sets, chosen by the current draw interval alone:
      snow after a normal draw interval, normal after any other. */
  function Retime(draw: int): (r: (int, int))
    ensures OnProfile(r.0, r.1, Normal) || OnProfile(r.0, r.1, Snow)
    ensures OnProfile(r.0, r.1, Snow) <==> draw == NormalDrawDt
  {
    DrawIntervals();
    if draw == NormalDrawDt then (SnowDrawDt, SnowSwitchDt) else (NormalDrawDt, NormalSwitchDt)
  }

  /** Retiming from either profile lands both intervals on the other one. */
  lemma RetimeFlips(p: Profile)
    ensures OnProfile(Retime(DrawDt(p)).0, Retime(DrawDt(p)).1, Flip(p))
  {
    DrawIntervals();
  }

  /** The two profiles share neither interval, so a pair is on at most one of them. */
  lemma ProfilesDistinct(draw: int, switch: int)
    ensures !(OnProfile(draw, switch, Normal) && OnProfile(draw, switch, Snow))
    ensures draw == NormalDrawDt ==> !OnProfile(draw, switch, Snow)
  {
    DrawIntervals();
  }
}
