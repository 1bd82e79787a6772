/** The display-cycle state machine `Window`: the current drawer, its place in the
    `artists()` sequence, the pause flag, the two timer intervals and the frames
    handed to the display sink. The Qt timers become the two interval fields; each
    timer tick and input event is a method call. */
module Display {
  import opened Common
  import opened Timing
  import opened Artists

  /** What one `redraw` call did. */
  datatype DrawOutcome = Skipped | Shown | Failed(error: Error)

  /** The keys `keyPressEvent` distinguishes. */
  datatype Key = KeyP | KeyQ | OtherKey(code: int)

  class Window {
    const width: nat
    const height: nat
    /** `self.drawer`, the current artist. */
    var drawer: Artist
    /** How many items have been pulled from `self.artists`. */
    var pulled: nat
    var paused: bool
    /** The intervals of the redraw timer and of the `_next_artist` timer. */
    var drawInterval: int
    var switchInterval: int
    /** Every frame handed to the display sink, oldest first. */
    var shown: seq<Image>
    /** How many pulls came from the switch timer and how many from mouse presses. */
    ghost var switches: nat
    ghost var clicks: nat

    /** The drawer is the latest item pulled, and the interval pair has flipped once per
        switch-timer pull: it is always exactly one of the two profiles. */
    ghost predicate Valid()
      reads this
    {
      FromArtists(drawer)
      && pulled == 1 + switches + clicks
      && (drawer.Patterned? <==> (pulled - 1) % 2 == 0)
      && OnProfile(drawInterval, switchInterval, if switches % 2 == 0 then Normal else Snow)
    }

    /** `Window()`: pulls the first artist, starts both timers on the normal profile,
        draws one frame with the pause gate open, then pauses. */
    constructor (roll: Roll, t: real, sin: real -> real)
      requires ValidRoll(roll)
      ensures Valid()
      ensures width == 500 && height == 500
      ensures pulled == 1 && drawer == ArtistAt(0, roll) && drawer.Patterned?
      ensures OnProfile(drawInterval, switchInterval, Normal)
      ensures paused
      ensures |shown| == 1 && Render(drawer, t, width, height, sin, []) == Ok(shown[0])
      ensures switches == 0 && clicks == 0
    {
      width, height := 500, 500;
      drawer := ArtistAt(0, roll);
      pulled := 1;
      drawInterval := NormalDrawDt;
      switchInterval := NormalSwitchDt;
      shown := [];
      switches, clicks := 0, 0;
      paused := true;
      new;
      ArtistAtAlternates(0, roll);
      RenderFailsOnlyOnEmptyRange(drawer, t, width, height, sin, []);
      paused := false;
      var outcome := Redraw(t, sin, []);
      paused := true;
    }

    /** `_next_artist`, the switch timer's slot: pulls the next artist and moves both
        intervals to the other profile. */
    method NextArtist(roll: Roll)
      requires Valid() && ValidRoll(roll)
      modifies this`drawer, this`pulled, this`drawInterval, this`switchInterval, this`switches
      ensures Valid()
      ensures drawer == ArtistAt(old(pulled), roll) && pulled == old(pulled) + 1
      ensures (drawInterval, switchInterval) == Retime(old(drawInterval))
      ensures old(OnProfile(drawInterval, switchInterval, Normal)) ==> OnProfile(drawInterval, switchInterval, Snow)
      ensures old(OnProfile(drawInterval, switchInterval, Snow)) ==> OnProfile(drawInterval, switchInterval, Normal)
      ensures switches == old(switches) + 1
    {
      ArtistAtAlternates(pulled, roll);
      drawer := ArtistAt(pulled, roll);
      pulled := pulled + 1;
      ProfilesDistinct(drawInterval, switchInterval);
      DrawIntervals();
      if drawInterval == NormalDrawDt {
        switchInterval := SnowSwitchDt;
        drawInterval := SnowDrawDt;
      } else {
        drawInterval := NormalDrawDt;
        switchInterval := NormalSwitchDt;
      }
      switches := switches + 1;
    }

    /** `redraw`, the redraw timer's slot: while paused it does nothing; otherwise it hands
        the current drawer's frame at time t to the sink, unless drawing raises. */
    method Redraw(t: real, sin: real -> real, noise: Matrix<int>) returns (outcome: DrawOutcome)
      requires Valid() && NoiseReady(drawer, noise, width, height)
      modifies this`shown
      ensures paused ==> outcome == Skipped && shown == old(shown)
      ensures !paused ==> match Render(drawer, t, width, height, sin, noise)
                          case Ok(img) => outcome == Shown && shown == old(shown) + [img]
                          case Err(e) => outcome == Failed(e) && shown == old(shown)
      ensures Valid()
    {
      if paused {
        return Skipped;
      }
      var frame := Render(drawer, t, width, height, sin, noise);
      match frame
      case Ok(img) =>
        shown := shown + [img];
        outcome := Shown;
      case Err(e) =>
        outcome := Failed(e);
    }

    /** `mousePressEvent`: pulls the next artist at once, leaving the intervals and the
        pause flag as they are. */
    method MousePress(roll: Roll)
      requires Valid() && ValidRoll(roll)
      modifies this`drawer, this`pulled, this`clicks
      ensures Valid()
      ensures drawer == ArtistAt(old(pulled), roll) && pulled == old(pulled) + 1
      ensures clicks == old(clicks) + 1
    {
      ArtistAtAlternates(pulled, roll);
      drawer := ArtistAt(pulled, roll);
      pulled := pulled + 1;
      clicks := clicks + 1;
    }

    /** `keyPressEvent`: P toggles the pause flag, Q asks for the process to exit, and any
        other key does nothing. */
    method KeyPress(key: Key) returns (quit: bool)
      requires Valid()
      modifies this`paused
      ensures Valid()
      ensures quit <==> key == KeyQ
      ensures paused == (if key == KeyP then !old(paused) else old(paused))
    {
      quit := false;
      if key == KeyP {
        paused := !paused;
      } else if key == KeyQ {
        quit := true;
      }
    }

    /** The profile matches the drawer's category (normal for patterned, snow for noise)
        exactly when an even number of mouse presses has been made. */
    lemma InStepIffEvenClicks()
      requires Valid()
      ensures (drawer.Patterned? <==> OnProfile(drawInterval, switchInterval, Normal))
          <==> clicks % 2 == 0
    {
      ProfilesDistinct(drawInterval, switchInterval);
      DrawIntervals();
    }
  }

  /** Starting up, pressing P and letting the redraw timer fire puts exactly one more
      frame on the sink; a tick before the key press adds none. */
  method StartPauseToggle(roll: Roll, t0: real, t1: real, t2: real, sin: real -> real)
      returns (before: DrawOutcome, after: DrawOutcome, frames: nat)
    requires ValidRoll(roll)
    ensures before == Skipped && after == Shown && frames == 2
  {
    var w := new Window(roll, t0, sin);
    before := w.Redraw(t1, sin, []);
    assert |w.shown| == 1;
    var quit := w.KeyPress(KeyP);
    RenderFailsOnlyOnEmptyRange(w.drawer, t2, w.width, w.height, sin, []);
    after := w.Redraw(t2, sin, []);
    frames := |w.shown|;
  }

  /** A mouse press right after start-up shows a noise artist while the timers stay on
      the normal profile: the profile falls out of step with the category. */
  method ClickDesyncs(roll0: Roll, roll1: Roll, t: real, sin: real -> real) returns (noise: bool, normal: bool)
    requires ValidRoll(roll0) && ValidRoll(roll1)
    ensures noise && normal
  {
    var w := new Window(roll0, t, sin);
    w.MousePress(roll1);
    noise := w.drawer.Noise?;
    normal := OnProfile(w.drawInterval, w.switchInterval, Normal);
  }

  /** Two switch-timer ticks after start-up bring both intervals back to normal, with the
      first tick moving both to snow in the same step. */
  method SwitchTwice(roll0: Roll, roll1: Roll, roll2: Roll, t: real, sin: real -> real)
      returns (first: (int, int), second: (int, int))
    requires ValidRoll(roll0) && ValidRoll(roll1) && ValidRoll(roll2)
    ensures first == (83, 200) && second == (33, 2000)
  {
    var w := new Window(roll0, t, sin);
    DrawIntervals();
    w.NextArtist(roll1);
    first := (w.drawInterval, w.switchInterval);
    w.NextArtist(roll2);
    second := (w.drawInterval, w.switchInterval);
  }
}
