/**
  `PlayerDataManager` and its `PlayerProfile`: the profile object is shared
  and updated in place by the run counters, the preference setters and the
  high-score rule. Firestore writes are not performed here; each operation
  returns the writes it issues (`SaveProfile`, a leaderboard entry), in
  order. The UTC date and the Unix time are inputs.
 */
module PlayerData {
  import opened Wrappers
  import opened Numbers

  /** A snapshot of every profile field; volumes are reals. */
  datatype ProfileData = ProfileData(
    username: Option<string>,
    email: Option<string>,
    normalHighScore: int,
    dailyHighScore: int,
    dailyHighScoreDate: string,
    totalRuns: int,
    totalPipes: int,
    musicVolume: real,
    soundFXVolume: real,
    musicMuted: bool,
    soundFXMuted: bool)

  /** The field initialisers of `PlayerProfile`. */
  const DEFAULT_PROFILE := ProfileData(None, None, 0, 0, "", 0, 0, 0.05, 1.0, false, false)

  /** What `CreateNewUser` stores. */
  function NewUserProfile(username: string, email: string, today: string): ProfileData
  {
    DEFAULT_PROFILE.(username := Some(username), email := Some(email), dailyHighScoreDate := today)
  }

  /** A new user starts with zero scores and counters, today's date and the
      default preferences. */
  lemma NewUserProfileFresh(username: string, email: string, today: string)
    ensures var p := NewUserProfile(username, email, today);
      p.normalHighScore == 0 && p.dailyHighScore == 0 && p.totalRuns == 0 && p.totalPipes == 0
      && p.dailyHighScoreDate == today && p.username == Some(username) && p.email == Some(email)
      && p.musicVolume == 0.05 && p.soundFXVolume == 1.0 && !p.musicMuted && !p.soundFXMuted
  {
  }

  /** One of the two run counters. */
  datatype Counter = Runs | Pipes

  /** `totalRuns++` / `totalPipes++` on an `int` field: the counter goes up
      by exactly one below the int limit, and no other field changes. */
  function Incremented(p: ProfileData, c: Counter): (q: ProfileData)
    ensures c.Runs? ==> q.(totalRuns := p.totalRuns) == p && IsInt32(q.totalRuns)
    ensures c.Pipes? ==> q.(totalPipes := p.totalPipes) == p && IsInt32(q.totalPipes)
    ensures c.Runs? && IsInt32(p.totalRuns) && p.totalRuns < INT32_MAX ==> q.totalRuns == p.totalRuns + 1
    ensures c.Pipes? && IsInt32(p.totalPipes) && p.totalPipes < INT32_MAX ==> q.totalPipes == p.totalPipes + 1
  {
    match c
    case Runs => p.(totalRuns := Wrap32(p.totalRuns + 1))
    case Pipes => p.(totalPipes := Wrap32(p.totalPipes + 1))
  }

  /** One preference setter. */
  datatype Preference = MusicVolume(v: real) | SoundFXVolume(v: real) | MusicMute(m: bool) | SoundFXMute(m: bool)

  /** Each setter stores its value in its own field and leaves every other
      field as it was. */
  function WithPreference(p: ProfileData, pref: Preference): (q: ProfileData)
    ensures pref.MusicVolume? ==> (q.musicVolume == pref.v && q.(musicVolume := p.musicVolume) == p)
    ensures pref.SoundFXVolume? ==> (q.soundFXVolume == pref.v && q.(soundFXVolume := p.soundFXVolume) == p)
    ensures pref.MusicMute? ==> (q.musicMuted == pref.m && q.(musicMuted := p.musicMuted) == p)
    ensures pref.SoundFXMute? ==> (q.soundFXMuted == pref.m && q.(soundFXMuted := p.soundFXMuted) == p)
  {
    match pref
    case MusicVolume(v) => p.(musicVolume := v)
    case SoundFXVolume(v) => p.(soundFXVolume := v)
    case MusicMute(m) => p.(musicMuted := m)
    case SoundFXMute(m) => p.(soundFXMuted := m)
  }

  /** Setting a preference twice is the same as setting it once. */
  lemma WithPreferenceIdempotent(p: ProfileData, pref: Preference)
    ensures WithPreference(WithPreference(p, pref), pref) == WithPreference(p, pref)
  {
  }

  function Max(a: int, b: int): int { if a >= b then a else b }

  /** The profile after `TryUpdateHighScore`, and whether the score beat
      the stored one (which is when the writes are issued).
      A daily score: the date becomes today, the stored score is first
      reset to 0 when the date was stale, the result is the larger of that
      base and the score, and the score improved exactly when it beats the
      base. A normal score: the stored score becomes the larger of the two,
      so it never decreases. Either way nothing else changes. */
  function HighScoreUpdate(p: ProfileData, score: int, isDaily: bool, today: string): (r: (ProfileData, bool))
    ensures isDaily ==>
      var base := if p.dailyHighScoreDate == today then p.dailyHighScore else 0;
      && r.0.dailyHighScoreDate == today
      && r.0.dailyHighScore == Max(base, score)
      && (r.1 <==> score > base)
      && r.0.(dailyHighScore := p.dailyHighScore, dailyHighScoreDate := p.dailyHighScoreDate) == p
    ensures !isDaily ==>
      && r.0.normalHighScore == Max(p.normalHighScore, score)
      && r.0.normalHighScore >= p.normalHighScore
      && (r.1 <==> score > p.normalHighScore)
      && r.0.(normalHighScore := p.normalHighScore) == p
  {
    if isDaily then
      var q := if p.dailyHighScoreDate != today then p.(dailyHighScore := 0, dailyHighScoreDate := today) else p;
      if score > q.dailyHighScore then (q.(dailyHighScore := score), true) else (q, false)
    else if score > p.normalHighScore then (p.(normalHighScore := score), true)
    else (p, false)
  }

  /** Submitting the same score again changes nothing and writes nothing. */
  lemma HighScoreUpdateIdempotent(p: ProfileData, score: int, isDaily: bool, today: string)
    ensures var q := HighScoreUpdate(p, score, isDaily, today).0;
      HighScoreUpdate(q, score, isDaily, today) == (q, false)
  {
  }

  /** A stale date with a score of 0 or less resets the daily score in the
      profile but writes nothing, so the reset is not saved. */
  lemma StaleResetNotSaved(p: ProfileData, score: int, today: string)
    requires p.dailyHighScoreDate != today && score <= 0
    ensures var (q, improved) := HighScoreUpdate(p, score, true, today);
      !improved && q.dailyHighScore == 0 && q.dailyHighScoreDate == today
  {
  }

  /** The anonymous object `UpdateLeaderboardEntry` writes. */
  datatype LeaderboardEntry = LeaderboardEntry(userId: Option<string>, username: Option<string>, score: int, timestamp: int)

  /** A write the manager issues, to the document named by the user id
      (which is still null before a user is created or loaded). */
  datatype Write =
    | SaveProfile(profile: ProfileData)
    | SetLeaderboard(collection: seq<string>, documentId: Option<string>, entry: LeaderboardEntry)

  /** The collection path: one per UTC day for daily scores, one fixed
      collection for normal scores. */
  function LeaderboardCollection(isDaily: bool, today: string): seq<string>
  {
    if isDaily then ["leaderboards", "daily", today] else ["leaderboards", "normal", "scores"]
  }

  function LeaderboardEntryFor(uid: Option<string>, p: ProfileData, isDaily: bool, timestamp: int): LeaderboardEntry
  {
    LeaderboardEntry(uid, p.username, if isDaily then p.dailyHighScore else p.normalHighScore, timestamp)
  }

  /** The writes of `TryUpdateHighScore`: none unless the score improved,
      else the profile save and then the leaderboard entry, which carries
      the new high score of the mode. */
  function HighScoreWrites(uid: Option<string>, p: ProfileData, score: int, isDaily: bool, today: string, timestamp: int): (ws: seq<Write>)
    ensures ws == [] <==> !HighScoreUpdate(p, score, isDaily, today).1
    ensures ws != [] ==>
      && |ws| == 2 && ws[0] == SaveProfile(HighScoreUpdate(p, score, isDaily, today).0)
      && ws[1].SetLeaderboard? && ws[1].documentId == uid
      && ws[1].entry == LeaderboardEntry(uid, p.username, score, timestamp)
  {
    var (q, improved) := HighScoreUpdate(p, score, isDaily, today);
    if improved then [SaveProfile(q), SetLeaderboard(LeaderboardCollection(isDaily, today), uid, LeaderboardEntryFor(uid, q, isDaily, timestamp))]
    else []
  }


  class PlayerProfile {
    var username: Option<string>
    var email: Option<string>
    var normalHighScore: int
    var dailyHighScore: int
    var dailyHighScoreDate: string
    var totalRuns: int
    var totalPipes: int
    var musicVolume: real
    var soundFXVolume: real
    var musicMuted: bool
    var soundFXMuted: bool

    function Data(): ProfileData
      reads this
    {
      ProfileData(username, email, normalHighScore, dailyHighScore, dailyHighScoreDate,
                  totalRuns, totalPipes, musicVolume, soundFXVolume, musicMuted, soundFXMuted)
    }

    /** A profile holding `d` (the object initialiser, or the snapshot
        conversion of a stored profile). */
    constructor(d: ProfileData)
      ensures Data() == d
    {
      username := d.username;
      email := d.email;
      normalHighScore := d.normalHighScore;
      dailyHighScore := d.dailyHighScore;
      dailyHighScoreDate := d.dailyHighScoreDate;
      totalRuns := d.totalRuns;
      totalPipes := d.totalPipes;
      musicVolume := d.musicVolume;
      soundFXVolume := d.soundFXVolume;
      musicMuted := d.musicMuted;
      soundFXMuted := d.soundFXMuted;
    }
  }

  class PlayerDataManager {
    var profile: PlayerProfile?
    var uid: Option<string>

    constructor()
      ensures profile == null && uid == None
    {
      profile := null;
      uid := None;
    }

    /** `CreateNewUser`: a fresh profile for the signed-in user, saved. */
    method CreateNewUser(username: string, email: string, userId: string, today: string) returns (writes: seq<Write>)
      modifies this
      ensures uid == Some(userId) && profile != null && fresh(profile)
      ensures profile.Data() == NewUserProfile(username, email, today)
      ensures writes == [SaveProfile(NewUserProfile(username, email, today))]
    {
      uid := Some(userId);
      profile := new PlayerProfile(NewUserProfile(username, email, today));
      writes := [SaveProfile(profile.Data())];
    }

    /** `LoadOrCreateUser` given the stored snapshot (None when the
        document does not exist): a missing one is replaced by a default
        profile, which is saved. */
    method LoadOrCreateUser(userId: string, snapshot: Option<ProfileData>) returns (writes: seq<Write>)
      modifies this
      ensures uid == Some(userId) && profile != null && fresh(profile)
      ensures snapshot.None? ==> profile.Data() == DEFAULT_PROFILE && writes == [SaveProfile(DEFAULT_PROFILE)]
      ensures snapshot.Some? ==> profile.Data() == snapshot.value && writes == []
    {
      uid := Some(userId);
      if snapshot.None? {
        profile := new PlayerProfile(DEFAULT_PROFILE);
        writes := [SaveProfile(DEFAULT_PROFILE)];
      } else {
        profile := new PlayerProfile(snapshot.value);
        writes := [];
      }
    }

    /** `AddRun` / `AddPipe`: without a profile nothing happens. */
    method AddCount(c: Counter) returns (writes: seq<Write>)
      modifies profile
      ensures profile == null ==> writes == []
      ensures profile != null ==>
        profile.Data() == Incremented(old(profile.Data()), c) && writes == [SaveProfile(profile.Data())]
    {
      if profile == null {
        return [];
      }
      match c {
        case Runs => profile.totalRuns := Wrap32(profile.totalRuns + 1);
        case Pipes => profile.totalPipes := Wrap32(profile.totalPipes + 1);
      }
      writes := [SaveProfile(profile.Data())];
    }

    /** `UpdateMusicVolume`, `UpdateSoundFXVolume`, `UpdateMusicMute`,
        `UpdateSoundFXMute`: without a profile nothing happens. */
    method UpdatePreference(pref: Preference) returns (writes: seq<Write>)
      modifies profile
      ensures profile == null ==> writes == []
      ensures profile != null ==>
        profile.Data() == WithPreference(old(profile.Data()), pref) && writes == [SaveProfile(profile.Data())]
    {
      if profile == null {
        return [];
      }
      match pref {
        case MusicVolume(v) => profile.musicVolume := v;
        case SoundFXVolume(v) => profile.soundFXVolume := v;
        case MusicMute(m) => profile.musicMuted := m;
        case SoundFXMute(m) => profile.soundFXMuted := m;
      }
      writes := [SaveProfile(profile.Data())];
    }

    /** The write `UpdateLeaderboardEntry` issues; none without a profile. */
    method UpdateLeaderboardEntry(isDaily: bool, today: string, timestamp: int) returns (writes: seq<Write>)
      ensures profile == null ==> writes == []
      ensures profile != null ==>
        writes == [SetLeaderboard(LeaderboardCollection(isDaily, today), uid, LeaderboardEntryFor(uid, profile.Data(), isDaily, timestamp))]
    {
      if profile == null {
        return [];
      }
      var score := if isDaily then profile.dailyHighScore else profile.normalHighScore;
      var entry := LeaderboardEntry(uid, profile.username, score, timestamp);
      if isDaily {
        writes := [SetLeaderboard(["leaderboards", "daily", today], uid, entry)];
      } else {
        writes := [SetLeaderboard(["leaderboards", "normal", "scores"], uid, entry)];
      }
    }

    /** `TryUpdateHighScore`: without a profile nothing happens. */
    method TryUpdateHighScore(score: int, isDaily: bool, today: string, timestamp: int) returns (writes: seq<Write>)
      modifies profile
      ensures profile == null ==> writes == []
      ensures profile != null ==>
        profile.Data() == HighScoreUpdate(old(profile.Data()), score, isDaily, today).0
        && writes == HighScoreWrites(uid, old(profile.Data()), score, isDaily, today, timestamp)
    {
      if profile == null {
        return [];
      }
      writes := [];
      if isDaily {
        if profile.dailyHighScoreDate != today {
          profile.dailyHighScore := 0;
          profile.dailyHighScoreDate := today;
        }
        if score > profile.dailyHighScore {
          profile.dailyHighScore := score;
          var entry := UpdateLeaderboardEntry(true, today, timestamp);
          writes := [SaveProfile(profile.Data())] + entry;
        }
      } else {
        if score > profile.normalHighScore {
          profile.normalHighScore := score;
          var entry := UpdateLeaderboardEntry(false, today, timestamp);
          writes := [SaveProfile(profile.Data())] + entry;
        }
      }
    }
  }
}
