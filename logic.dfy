/**
  `LogicScript`: the score, the game-over screen and the high-score
  banner. The profile is the shared `PlayerDataManager`; what the
  `AuthManager` and `GameModeManager` report (signed in as a non-guest,
  e-mail verified, daily mode) and the UTC date and Unix time are inputs.
  Visibility of each UI object is a boolean field.
 */
module Logic {
  import opened Wrappers
  import opened Numbers
  import opened Engine
  import opened PlayerData

  function ScoreLabel(score: int): string
  {
    "Current Score: " + IntToString(score)
  }

  function HighScoreLabel(isDaily: bool, highScore: int): string
  {
    (if isDaily then "Daily High Score: " else "High Score: ") + IntToString(highScore)
  }

  const NO_HIGH_SCORE_LABEL := "High Score: 0"
  const VERIFY_EMAIL_TEXT := "Verify Email to save score to leaderboard!"

  /** `GetCurrentHighScore` on a profile snapshot: 0 without a profile. */
  function HighScoreOf(p: Option<ProfileData>, isDaily: bool): (r: int)
    ensures p.None? ==> r == 0
    ensures p.Some? ==> r == if isDaily then p.value.dailyHighScore else p.value.normalHighScore
  {
    match p
    case None => 0
    case Some(d) => if isDaily then d.dailyHighScore else d.normalHighScore
  }

  /** The banner condition: the score equals the high score read back
      after the update, and is positive. */
  predicate Banner(score: int, newHigh: int)
  {
    score == newHigh && score > 0
  }

  /** What scripts outside this class are asked to do. */
  datatype Effect = PressSound | ReloadScene

  /** With a profile, the banner shows exactly when a positive score
      reaches the mode's high score as it stood before the run (0 for a
      stale daily date). A tie therefore shows it too. */
  lemma BannerIffRecordReached(p: ProfileData, score: int, isDaily: bool, today: string)
    requires score > 0
    ensures var q := HighScoreUpdate(p, score, isDaily, today).0;
      var before := if !isDaily then p.normalHighScore else if p.dailyHighScoreDate == today then p.dailyHighScore else 0;
      Banner(score, HighScoreOf(Some(q), isDaily)) <==> score >= before
  {
  }

  /** A positive score equal to the stored normal high score shows the
      banner although no write is issued. */
  lemma TieShowsBannerWithoutSave(uid: Option<string>, p: ProfileData, score: int, today: string, timestamp: int)
    requires score > 0 && p.normalHighScore == score
    ensures Banner(score, HighScoreOf(Some(HighScoreUpdate(p, score, false, today).0), false))
    ensures HighScoreWrites(uid, p, score, false, today, timestamp) == []
  {
  }

  /** Without a profile the banner never shows. */
  lemma NoProfileNoBanner(score: int, isDaily: bool)
    ensures !Banner(score, HighScoreOf(None, isDaily))
  {
  }

  class LogicScript {
    var playerScore: int
    var highScore: int
    var isGameOver: bool
    var scoreText: string
    var highScoreText: string
    var gameOverScreenActive: bool
    var newHighScoreActive: bool
    var newHighScoreText: string
    var verifyEmailActive: bool
    var verifyEmailText: string
    var resendEmailActive: bool
    var openCreateAccountActive: bool
    var openSignInActive: bool
    var skipActive: bool
    var createAccountCanvasActive: bool
    var signInCanvasActive: bool
    const data: PlayerDataManager
    const clock: GameClock
    const input: InputActions

    function ProfileSnapshot(): Option<ProfileData>
      reads data, data.profile
    {
      if data.profile == null then None else Some(data.profile.Data())
    }

    /** `GetCurrentHighScore(isDaily)`. */
    function GetCurrentHighScore(isDaily: bool): int
      reads data, data.profile
    {
      HighScoreOf(ProfileSnapshot(), isDaily)
    }

    /** The field initialisers and `Awake`: every screen and button hidden. */
    constructor(data: PlayerDataManager, clock: GameClock, input: InputActions)
      ensures this.data == data && this.clock == clock && this.input == input
      ensures playerScore == 0 && highScore == 0 && !isGameOver
      ensures !gameOverScreenActive && !createAccountCanvasActive && !signInCanvasActive
      ensures !openCreateAccountActive && !openSignInActive && !skipActive
      ensures !newHighScoreActive && !verifyEmailActive && !resendEmailActive
      ensures verifyEmailText == VERIFY_EMAIL_TEXT
    {
      this.data := data;
      this.clock := clock;
      this.input := input;
      playerScore := 0;
      highScore := 0;
      isGameOver := false;
      scoreText := "";
      highScoreText := "";
      newHighScoreText := "";
      gameOverScreenActive := false;
      createAccountCanvasActive := false;
      signInCanvasActive := false;
      openCreateAccountActive := false;
      openSignInActive := false;
      skipActive := false;
      newHighScoreActive := false;
      verifyEmailActive := false;
      resendEmailActive := false;
      verifyEmailText := VERIFY_EMAIL_TEXT;
    }

    /** `LoadHighScoreFromProfile`; `managersPresent` says whether both the
        `AuthManager` and the `GameModeManager` exist. */
    method LoadHighScoreFromProfile(managersPresent: bool, isDaily: bool)
      modifies this`highScore, this`highScoreText
      ensures !managersPresent ==> highScore == old(highScore) && highScoreText == NO_HIGH_SCORE_LABEL
      ensures managersPresent ==>
        highScore == GetCurrentHighScore(isDaily) && highScoreText == HighScoreLabel(isDaily, highScore)
      ensures playerScore == old(playerScore) && scoreText == old(scoreText) && isGameOver == old(isGameOver)
    {
      if !managersPresent {
        highScoreText := NO_HIGH_SCORE_LABEL;
        return;
      }
      highScore := GetCurrentHighScore(isDaily);
      highScoreText := HighScoreLabel(isDaily, highScore);
    }

    /** `Start`: the score is reset, then the high score is shown for a
        signed-in player. Returns whether the profile still has to be
        loaded (the coroutine that then calls `LoadHighScoreFromProfile`). */
    method Start(signedIn: bool, managersPresent: bool, isDaily: bool) returns (loadsProfile: bool)
      modifies this`playerScore, this`scoreText, this`highScore, this`highScoreText
      ensures playerScore == 0 && scoreText == ScoreLabel(0) && isGameOver == old(isGameOver)
      ensures loadsProfile <==> signedIn && data.profile == null
      ensures !signedIn ==> highScore == old(highScore) && highScoreText == NO_HIGH_SCORE_LABEL
      ensures loadsProfile ==> highScore == old(highScore) && highScoreText == old(highScoreText)
      ensures signedIn && data.profile != null && managersPresent ==>
        highScore == GetCurrentHighScore(isDaily) && highScoreText == HighScoreLabel(isDaily, highScore)
      ensures signedIn && data.profile != null && !managersPresent ==>
        highScore == old(highScore) && highScoreText == NO_HIGH_SCORE_LABEL
    {
      playerScore := 0;
      scoreText := ScoreLabel(playerScore);
      loadsProfile := false;
      if signedIn {
        if data.profile == null {
          loadsProfile := true;
        } else {
          LoadHighScoreFromProfile(managersPresent, isDaily);
        }
      } else {
        highScoreText := NO_HIGH_SCORE_LABEL;
      }
    }

    /** `AddScore(amount)` on the `int` field. */
    method AddScore(amount: int)
      modifies this`playerScore, this`scoreText
      ensures playerScore == Wrap32(old(playerScore) + amount) && scoreText == ScoreLabel(playerScore)
      ensures IsInt32(old(playerScore) + amount) ==> playerScore == old(playerScore) + amount
      ensures highScore == old(highScore) && isGameOver == old(isGameOver)
    {
      playerScore := Wrap32(playerScore + amount);
      scoreText := ScoreLabel(playerScore);
    }

    /** `GameOver`. `member` is `AuthManager.Instance != null && IsSignedIn
        && !IsGuest`. Returns the profile and leaderboard writes in order:
        the run counter first, then the high-score update. */
    method GameOver(isDaily: bool, member: bool, emailVerified: bool, today: string, timestamp: int)
      returns (writes: seq<Write>)
      modifies this`isGameOver, this`gameOverScreenActive, this`highScore, this`highScoreText,
        this`newHighScoreActive, this`newHighScoreText, this`openCreateAccountActive, this`openSignInActive, this`skipActive, this`verifyEmailActive, this`resendEmailActive
      modifies clock, input, data.profile
      ensures isGameOver && gameOverScreenActive && clock.timeScale == 0.0
      ensures !input.playerEnabled && !input.pauseEnabled && input.playAgainEnabled
      ensures playerScore == old(playerScore) && scoreText == old(scoreText)
      ensures data.profile == null ==> writes == []
      ensures data.profile != null ==>
        var counted := Incremented(old(data.profile.Data()), Runs);
        data.profile.Data() == HighScoreUpdate(counted, playerScore, isDaily, today).0
        && writes == [SaveProfile(counted)] + HighScoreWrites(data.uid, counted, playerScore, isDaily, today, timestamp)
      ensures Banner(playerScore, GetCurrentHighScore(isDaily)) ==>
        newHighScoreActive && newHighScoreText == "NEW HIGH SCORE: " + IntToString(playerScore)
      ensures !Banner(playerScore, GetCurrentHighScore(isDaily)) ==>
        newHighScoreActive == old(newHighScoreActive) && newHighScoreText == old(newHighScoreText)
      ensures member ==> !openCreateAccountActive && !openSignInActive && !skipActive
      ensures member && !emailVerified ==> verifyEmailActive && resendEmailActive
      ensures member && emailVerified ==>
        verifyEmailActive == old(verifyEmailActive) && resendEmailActive == old(resendEmailActive)
      ensures !member && Banner(playerScore, GetCurrentHighScore(isDaily)) ==>
        openCreateAccountActive && openSignInActive && skipActive && !verifyEmailActive && !resendEmailActive
      ensures !member && !Banner(playerScore, GetCurrentHighScore(isDaily)) ==>
        openCreateAccountActive == old(openCreateAccountActive) && openSignInActive == old(openSignInActive)
        && skipActive == old(skipActive)
        && verifyEmailActive == old(verifyEmailActive) && resendEmailActive == old(resendEmailActive)
      ensures highScore == GetCurrentHighScore(isDaily) && highScoreText == HighScoreLabel(isDaily, highScore)
    {
      isGameOver := true;
      gameOverScreenActive := true;
      clock.timeScale := 0.0;
      input.playerEnabled := false;
      input.pauseEnabled := false;
      input.playAgainEnabled := true;
      writes := RecordRun(isDaily, today, timestamp);
      ShowResult(GetCurrentHighScore(isDaily), member, emailVerified);
      highScore := GetCurrentHighScore(isDaily);
      highScoreText := HighScoreLabel(isDaily, highScore);
    }

    /** The profile part of `GameOver`: `AddRun`, then `TryUpdateHighScore`
        with the final score. */
    method RecordRun(isDaily: bool, today: string, timestamp: int) returns (writes: seq<Write>)
      modifies data.profile
      ensures data.profile == null ==> writes == []
      ensures data.profile != null ==>
        var counted := Incremented(old(data.profile.Data()), Runs);
        data.profile.Data() == HighScoreUpdate(counted, playerScore, isDaily, today).0
        && writes == [SaveProfile(counted)] + HighScoreWrites(data.uid, counted, playerScore, isDaily, today, timestamp)
    {
      var runWrites := data.AddCount(Runs);
      var scoreWrites := data.TryUpdateHighScore(playerScore, isDaily, today, timestamp);
      writes := runWrites + scoreWrites;
    }

    /** The banner and button part of `GameOver`, given the high score read
        back after the update. */
    method ShowResult(newHigh: int, member: bool, emailVerified: bool)
      modifies this`newHighScoreActive, this`newHighScoreText, this`openCreateAccountActive, this`openSignInActive, this`skipActive, this`verifyEmailActive, this`resendEmailActive
      ensures Banner(playerScore, newHigh) ==>
        newHighScoreActive && newHighScoreText == "NEW HIGH SCORE: " + IntToString(playerScore)
      ensures !Banner(playerScore, newHigh) ==>
        newHighScoreActive == old(newHighScoreActive) && newHighScoreText == old(newHighScoreText)
      ensures member ==> !openCreateAccountActive && !openSignInActive && !skipActive
      ensures member && !emailVerified ==> verifyEmailActive && resendEmailActive
      ensures member && emailVerified ==>
        verifyEmailActive == old(verifyEmailActive) && resendEmailActive == old(resendEmailActive)
      ensures !member && Banner(playerScore, newHigh) ==>
        openCreateAccountActive && openSignInActive && skipActive && !verifyEmailActive && !resendEmailActive
      ensures !member && !Banner(playerScore, newHigh) ==>
        openCreateAccountActive == old(openCreateAccountActive) && openSignInActive == old(openSignInActive)
        && skipActive == old(skipActive)
        && verifyEmailActive == old(verifyEmailActive) && resendEmailActive == old(resendEmailActive)
      ensures playerScore == old(playerScore) && scoreText == old(scoreText) && isGameOver == old(isGameOver)
      ensures gameOverScreenActive == old(gameOverScreenActive)
    {
      if member {
        if playerScore == newHigh && playerScore > 0 {
          newHighScoreActive := true;
          newHighScoreText := "NEW HIGH SCORE: " + IntToString(playerScore);
        }
        if !emailVerified {
          verifyEmailActive := true;
          resendEmailActive := true;
        }
        openCreateAccountActive := false;
        openSignInActive := false;
        skipActive := false;
      } else {
        if playerScore == newHigh && playerScore > 0 {
          newHighScoreActive := true;
          newHighScoreText := "NEW HIGH SCORE: " + IntToString(playerScore);
          openCreateAccountActive := true;
          openSignInActive := true;
          skipActive := true;
          verifyEmailActive := false;
          resendEmailActive := false;
        }
      }
    }

    /** `RestartGame`: the press sound, time running again, the scene
        reloaded. */
    method RestartGame() returns (effects: seq<Effect>)
      modifies clock
      ensures clock.timeScale == 1.0 && effects == [PressSound, ReloadScene]
    {
      clock.timeScale := 1.0;
      effects := [PressSound, ReloadScene];
    }

    /** `OnPlayAgain`: restarts only after game over and on a performed
        action. */
    method OnPlayAgain(performed: bool) returns (effects: seq<Effect>)
      modifies clock
      ensures isGameOver && performed ==> clock.timeScale == 1.0 && effects == [PressSound, ReloadScene]
      ensures !(isGameOver && performed) ==> clock.timeScale == old(clock.timeScale) && effects == []
    {
      effects := [];
      if isGameOver && performed {
        effects := RestartGame();
      }
    }
  }
}
