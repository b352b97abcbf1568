/**
  The frame driver of the bounce game: each animation frame turns the time
  since the previous frame into a step length capped at MAX_DT, and runs one
  physics step only while the game is running. Run folds that over a
  sequence of frames; the lemmas state what holds over any number of frames.
*/
module Frames {
  import opened Physics

  /** The longest step the physics is ever asked to take, in seconds. */
  const MAX_DT: real := 0.033

  /** One animation frame as the driver sees it: the latest tilt sample and
      the milliseconds elapsed since the previous frame. */
  datatype Sample = Sample(accelX: real, elapsedMs: real)

  /** The step length: the elapsed time in seconds, or MAX_DT when longer. */
  function ClampDt(elapsedMs: real): (dt: real)
    ensures dt <= MAX_DT && dt <= elapsedMs / 1000.0
    ensures dt == MAX_DT || dt == elapsedMs / 1000.0
  {
    Min(elapsedMs / 1000.0, MAX_DT)
  }

  /** One frame: a physics step of the clamped length, only while running. */
  function Frame(w: World, s: Sample, screenWidth: real, screenHeight: real): (r: World)
    ensures !w.running ==> r == w
    ensures r.running ==> w.running
    ensures w.score <= r.score <= w.score + 1
    ensures WellFormed(w, screenHeight) ==> WellFormed(r, screenHeight)
    ensures WellFormed(w, screenHeight) && ScreenFits(screenWidth, screenHeight) && OnScreen(w, screenWidth) ==>
              OnScreen(r, screenWidth)
  {
    if w.running then PhysicsStep(w, s.accelX, ClampDt(s.elapsedMs), screenWidth, screenHeight) else w
  }

  /** The world after the given frames, in order. */
  function Run(w: World, samples: seq<Sample>, screenWidth: real, screenHeight: real): (r: World)
    decreases |samples|
  {
    if samples == [] then w
    else Run(Frame(w, samples[0], screenWidth, screenHeight), samples[1..], screenWidth, screenHeight)
  }

  /** Running frames one batch after another is running them all at once. */
  lemma {:induction false} RunAppend(w: World, s: seq<Sample>, t: seq<Sample>, screenWidth: real, screenHeight: real)
    ensures Run(w, s + t, screenWidth, screenHeight) ==
            Run(Run(w, s, screenWidth, screenHeight), t, screenWidth, screenHeight)
    decreases |s|
  {
    if s == [] {
      assert s + t == t;
    } else {
      assert (s + t)[0] == s[0];
      assert (s + t)[1..] == s[1..] + t;
      RunAppend(Frame(w, s[0], screenWidth, screenHeight), s[1..], t, screenWidth, screenHeight);
    }
  }

  /** After game over nothing moves and nothing scores, however many frames pass. */
  lemma {:induction false} StoppedWorldIsFrozen(w: World, s: seq<Sample>, screenWidth: real, screenHeight: real)
    requires !w.running
    ensures Run(w, s, screenWidth, screenHeight) == w
    decreases |s|
  {
    if s != [] {
      StoppedWorldIsFrozen(Frame(w, s[0], screenWidth, screenHeight), s[1..], screenWidth, screenHeight);
    }
  }

  /** Game over is final: once some frames have ended the game, any further
      frames leave the world exactly as it was at that moment. */
  lemma GameOverIsFinal(w: World, s: seq<Sample>, t: seq<Sample>, screenWidth: real, screenHeight: real)
    requires !Run(w, s, screenWidth, screenHeight).running
    ensures Run(w, s + t, screenWidth, screenHeight) == Run(w, s, screenWidth, screenHeight)
  {
    RunAppend(w, s, t, screenWidth, screenHeight);
    StoppedWorldIsFrozen(Run(w, s, screenWidth, screenHeight), t, screenWidth, screenHeight);
  }

  /** Frames never restart a game: a world still running after some frames
      was running before them. */
  lemma {:induction false} RunNeverRestarts(w: World, s: seq<Sample>, screenWidth: real, screenHeight: real)
    ensures Run(w, s, screenWidth, screenHeight).running ==> w.running
    decreases |s|
  {
    if s != [] {
      RunNeverRestarts(Frame(w, s[0], screenWidth, screenHeight), s[1..], screenWidth, screenHeight);
    }
  }

  /** The score never goes down, and each frame adds at most one bounce. */
  lemma {:induction false} RunScoreBounds(w: World, s: seq<Sample>, screenWidth: real, screenHeight: real)
    ensures w.score <= Run(w, s, screenWidth, screenHeight).score <= w.score + |s|
    decreases |s|
  {
    if s != [] {
      RunScoreBounds(Frame(w, s[0], screenWidth, screenHeight), s[1..], screenWidth, screenHeight);
    }
  }

  /** Over any number of frames the sizes stay fixed and the platform and
      the ball stay horizontally on screen. */
  lemma {:induction false} RunStaysOnScreen(w: World, s: seq<Sample>, screenWidth: real, screenHeight: real)
    requires ScreenFits(screenWidth, screenHeight)
    requires WellFormed(w, screenHeight) && OnScreen(w, screenWidth)
    ensures WellFormed(Run(w, s, screenWidth, screenHeight), screenHeight)
    ensures OnScreen(Run(w, s, screenWidth, screenHeight), screenWidth)
    decreases |s|
  {
    if s != [] {
      RunStaysOnScreen(Frame(w, s[0], screenWidth, screenHeight), s[1..], screenWidth, screenHeight);
    }
  }

  /** A new game satisfies every invariant above from its first frame on. */
  lemma NewGameStaysOnScreen(s: seq<Sample>, screenWidth: real, screenHeight: real)
    requires ScreenFits(screenWidth, screenHeight)
    ensures var r := Run(InitialWorld(screenWidth, screenHeight), s, screenWidth, screenHeight);
            WellFormed(r, screenHeight) && OnScreen(r, screenWidth) && r.score <= |s|
  {
    RunStaysOnScreen(InitialWorld(screenWidth, screenHeight), s, screenWidth, screenHeight);
    RunScoreBounds(InitialWorld(screenWidth, screenHeight), s, screenWidth, screenHeight);
  }
}
