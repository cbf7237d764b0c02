/**
  The engine state the game scripts share: `Time.timeScale` and the
  enabled flags of the input actions (`Player`, `UI.Pause`,
  `UI.PlayAgain`) of one `PlayerInputActions` instance.
 */
module Engine {
  class GameClock {
    var timeScale: real

    constructor()
      ensures timeScale == 1.0
    {
      timeScale := 1.0;
    }
  }

  class InputActions {
    var playerEnabled: bool
    var pauseEnabled: bool
    var playAgainEnabled: bool

    constructor()
      ensures !playerEnabled && !pauseEnabled && !playAgainEnabled
    {
      playerEnabled := false;
      pauseEnabled := false;
      playAgainEnabled := false;
    }
  }
}
