/**
  `PauseManager`: the paused flag, the shared time scale, and the
  visibility of the paused screen and the pause button.
 */
module Pause {
  import opened Engine

  /** Everything a pause or resume sets. */
  datatype PauseState = PauseState(isPaused: bool, timeScale: real, pausedScreenActive: bool, pauseButtonActive: bool)

  const PAUSED := PauseState(true, 0.0, true, false)
  const RUNNING := PauseState(false, 1.0, false, true)

  /** The state `TogglePause` leaves: `Resume` when paused, else `Pause`. */
  function Toggled(s: PauseState): (t: PauseState)
    ensures t.isPaused == !s.isPaused
  {
    if s.isPaused then RUNNING else PAUSED
  }

  /** The state is one that `Pause` or `Resume` could have left. */
  predicate Consistent(s: PauseState)
  {
    s == PAUSED || s == RUNNING
  }

  /** From a consistent state two toggles change nothing; from any state
      one toggle reaches a consistent one. */
  lemma ToggleTwice(s: PauseState)
    ensures Consistent(Toggled(s))
    ensures Consistent(s) ==> Toggled(Toggled(s)) == s
  {
  }

  class PauseManager {
    var isPaused: bool
    var pausedScreenActive: bool
    var pauseButtonActive: bool
    const clock: GameClock

    function State(): PauseState
      reads this, clock
    {
      PauseState(isPaused, clock.timeScale, pausedScreenActive, pauseButtonActive)
    }

    constructor(clock: GameClock, pausedScreenActive: bool, pauseButtonActive: bool)
      ensures this.clock == clock && !isPaused
      ensures this.pausedScreenActive == pausedScreenActive && this.pauseButtonActive == pauseButtonActive
    {
      this.clock := clock;
      isPaused := false;
      this.pausedScreenActive := pausedScreenActive;
      this.pauseButtonActive := pauseButtonActive;
    }

    method Pause()
      modifies this, clock
      ensures State() == PAUSED
    {
      isPaused := true;
      clock.timeScale := 0.0;
      pausedScreenActive := true;
      pauseButtonActive := false;
    }

    method Resume()
      modifies this, clock
      ensures State() == RUNNING
    {
      isPaused := false;
      clock.timeScale := 1.0;
      pausedScreenActive := false;
      pauseButtonActive := true;
    }

    method TogglePause()
      modifies this, clock
      ensures State() == Toggled(old(State()))
    {
      if isPaused {
        Resume();
      } else {
        Pause();
      }
    }

    /** `goHome` (the scene load is left to the caller). */
    method GoHome()
      modifies clock
      ensures clock.timeScale == 1.0
    {
      clock.timeScale := 1.0;
    }

    /** `QuitGame` (the application exit is left to the caller). */
    method QuitGame()
      modifies clock
      ensures clock.timeScale == 1.0
    {
      clock.timeScale := 1.0;
    }
  }
}
