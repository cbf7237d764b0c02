/**
  `AudioManager`: the pool of sound-effect sources (a FIFO queue), the
  background-music source, and the volume and mute settings. Sources are
  numbered in the order they are instantiated; `active` holds those whose
  game object is active. The coroutine that returns a source to the pool
  is the explicit operation `ReturnToPool`, which the caller runs once the
  `returnAfter` delay of the play has elapsed.
 */
module Audio {
  import opened Wrappers
  import opened Numbers

  /** An audio clip and its length in seconds. */
  datatype Clip = Clip(id: nat, length: real)

  /** One sound effect started by `PlaySoundFX`. */
  datatype Play = Play(source: nat, clip: Clip, volume: real, returnAfter: real)

  /** How long a source stays out of the pool: the clip's length, or 0.2 s
      when that is not positive, plus 0.05 s. */
  function ReturnDelay(length: real): (d: real)
    ensures length > 0.0 ==> d == length + 0.05
    ensures length <= 0.0 ==> d == 0.25
    ensures d > 0.05
  {
    (if length > 0.0 then length else 0.2) + 0.05
  }

  /** The source numbers lo, lo + 1, ..., hi - 1. */
  function Range(lo: nat, hi: nat): (r: seq<nat>)
    ensures |r| == if lo <= hi then hi - lo else 0
    ensures forall i :: 0 <= i < |r| ==> r[i] == lo + i
    decreases hi - lo
  {
    if lo >= hi then [] else [lo] + Range(lo + 1, hi)
  }

  const DEFAULT_SOUND_FX_VOLUME: real := 0.5
  const DEFAULT_MUSIC_VOLUME: real := 0.5

  class AudioManager {
    const poolSize: int
    const prefabAssigned: bool
    const defaultSoundFX: Option<Clip>
    const startScreenMusic: Option<Clip>
    const gameMusic: Option<Clip>
    const defaultStartScreenMusicVolume: real
    const defaultGameMusicVolume: real

    var soundFXVolume: real
    var soundFXMuted: bool
    var musicVolume: real
    var defaultMusicVolume: real
    var musicMuted: bool

    /** The queue of inactive sources, front first. */
    var pool: seq<nat>
    var active: set<nat>
    /** How many sources have been instantiated. */
    var sourceCount: nat

    /** The background-music source: whether `Awake` created it, and its
        clip, volume, mute flag, loop flag and number of `Play` calls. */
    var musicSourceReady: bool
    var musicClip: Option<Clip>
    var musicSourceVolume: real
    var musicSourceMute: bool
    var musicSourceLoop: bool
    var musicStarts: nat

    /** Every instantiated source is either queued once or active, never
        both, and the stored volumes lie in [0, 1]. */
    ghost predicate Valid()
      reads this
    {
      (forall i, j :: 0 <= i < j < |pool| ==> pool[i] != pool[j])
      && (forall i :: 0 <= i < |pool| ==> pool[i] < sourceCount && pool[i] !in active)
      && (forall s :: s in active ==> s < sourceCount)
      && (forall s: nat :: s < sourceCount ==> s in active || s in pool)
      && 0.0 <= soundFXVolume <= 1.0 && 0.0 <= musicVolume <= 1.0
    }

    function GetMusicVolume(): real
      reads this
    {
      musicVolume
    }

    function IsMusicMuted(): bool
      reads this
    {
      musicMuted
    }

    function GetSoundFXVolume(): real
      reads this
    {
      soundFXVolume
    }

    function IsSoundFXMuted(): bool
      reads this
    {
      soundFXMuted
    }

    /** The field initialisers: nothing instantiated yet. */
    constructor(poolSize: int, prefabAssigned: bool, defaultSoundFX: Option<Clip>,
                startScreenMusic: Option<Clip>, gameMusic: Option<Clip>,
                defaultStartScreenMusicVolume: real, defaultGameMusicVolume: real)
      ensures Valid() && pool == [] && active == {} && sourceCount == 0 && !musicSourceReady
      ensures this.poolSize == poolSize && this.prefabAssigned == prefabAssigned
      ensures this.defaultSoundFX == defaultSoundFX
      ensures this.startScreenMusic == startScreenMusic && this.gameMusic == gameMusic
      ensures this.defaultStartScreenMusicVolume == defaultStartScreenMusicVolume
      ensures this.defaultGameMusicVolume == defaultGameMusicVolume
      ensures soundFXVolume == DEFAULT_SOUND_FX_VOLUME && musicVolume == DEFAULT_MUSIC_VOLUME
      ensures defaultMusicVolume == 1.0 && !soundFXMuted && !musicMuted
    {
      this.poolSize := poolSize;
      this.prefabAssigned := prefabAssigned;
      this.defaultSoundFX := defaultSoundFX;
      this.startScreenMusic := startScreenMusic;
      this.gameMusic := gameMusic;
      this.defaultStartScreenMusicVolume := defaultStartScreenMusicVolume;
      this.defaultGameMusicVolume := defaultGameMusicVolume;
      soundFXVolume := DEFAULT_SOUND_FX_VOLUME;
      soundFXMuted := false;
      musicVolume := DEFAULT_MUSIC_VOLUME;
      defaultMusicVolume := 1.0;
      musicMuted := false;
      pool := [];
      active := {};
      sourceCount := 0;
      musicSourceReady := false;
      musicClip := None;
      musicSourceVolume := 1.0;
      musicSourceMute := false;
      musicSourceLoop := false;
      musicStarts := 0;
    }

    /** `Awake`: `poolSize` new inactive sources are queued, then the
        looping music source is created. Instantiating an unassigned prefab
        raises, which ends `Awake` before the music source exists. */
    method Awake() returns (completed: bool)
      requires Valid()
      modifies this`pool, this`sourceCount, this`musicSourceReady, this`musicSourceLoop
      ensures Valid() && active == old(active)
      ensures completed <==> prefabAssigned || poolSize <= 0
      ensures completed ==>
        var n := if poolSize > 0 then poolSize else 0;
        sourceCount == old(sourceCount) + n && pool == old(pool) + Range(old(sourceCount), sourceCount)
        && musicSourceReady && musicSourceLoop
      ensures !completed ==>
        sourceCount == old(sourceCount) && pool == old(pool) && musicSourceReady == old(musicSourceReady)
        && musicSourceLoop == old(musicSourceLoop)
      ensures musicClip == old(musicClip) && musicStarts == old(musicStarts)
      ensures soundFXVolume == old(soundFXVolume) && musicVolume == old(musicVolume)
      ensures soundFXMuted == old(soundFXMuted) && musicMuted == old(musicMuted)
    {
      var i := 0;
      while i < poolSize
        invariant 0 <= i && (0 < i ==> i <= poolSize) && (i == 0 || prefabAssigned)
        invariant Valid() && active == old(active) && Untouched() == old(Untouched())
        invariant sourceCount == old(sourceCount) + i && pool == old(pool) + Range(old(sourceCount), sourceCount)
      {
        if !prefabAssigned {
          return false;
        }
        EnqueueFresh(old(pool), old(sourceCount));
        i := i + 1;
      }
      musicSourceReady := true;
      musicSourceLoop := true;
      return true;
    }

    /** The fields the pool operations leave alone. */
    function Untouched(): (bool, bool, Option<Clip>, nat, real, real, bool, bool)
      reads this
    {
      (musicSourceReady, musicSourceLoop, musicClip, musicStarts, soundFXVolume, musicVolume, soundFXMuted, musicMuted)
    }

    /** One pass of the `Awake` loop: a new source, inactive, at the back
        of a queue that held `queued` followed by the sources from `first` on. */
    method EnqueueFresh(ghost queued: seq<nat>, ghost first: nat)
      requires Valid() && first <= sourceCount && pool == queued + Range(first, sourceCount)
      modifies this`pool, this`sourceCount
      ensures Valid() && active == old(active) && Untouched() == old(Untouched())
      ensures sourceCount == old(sourceCount) + 1 && pool == old(pool) + [old(sourceCount)]
      ensures pool == queued + Range(first, sourceCount)
    {
      RangeSnoc(first, sourceCount);
      pool := pool + [sourceCount];
      sourceCount := sourceCount + 1;
    }

    /** `PlayMusic`: nothing without a music source, while muted, or when
        the clip is already the current one. */
    method PlayMusic(clip: Option<Clip>, volume: real)
      modifies this`musicClip, this`musicSourceVolume, this`musicStarts
      ensures !old(musicSourceReady) || old(musicMuted) || old(musicClip) == clip ==>
        musicClip == old(musicClip) && musicSourceVolume == old(musicSourceVolume) && musicStarts == old(musicStarts)
      ensures old(musicSourceReady) && !old(musicMuted) && old(musicClip) != clip ==>
        musicClip == clip && musicSourceVolume == Clamp01(volume * musicVolume) && musicStarts == old(musicStarts) + 1
      ensures musicSourceReady == old(musicSourceReady) && musicMuted == old(musicMuted)
      ensures musicVolume == old(musicVolume) && defaultMusicVolume == old(defaultMusicVolume)
      ensures pool == old(pool) && active == old(active) && sourceCount == old(sourceCount)
      ensures soundFXVolume == old(soundFXVolume) && soundFXMuted == old(soundFXMuted)
      ensures musicSourceMute == old(musicSourceMute) && musicSourceLoop == old(musicSourceLoop)
    {
      if !musicSourceReady {
        return;
      }
      if musicMuted {
        return;
      }
      if musicClip == clip {
        return;
      }
      musicClip := clip;
      musicSourceVolume := Clamp01(volume * musicVolume);
      musicStarts := musicStarts + 1;
    }

    method PlayStartScreenMusic()
      modifies this`defaultMusicVolume, this`musicClip, this`musicSourceVolume, this`musicStarts
      ensures defaultMusicVolume == defaultStartScreenMusicVolume
      ensures old(musicSourceReady) && !old(musicMuted) && old(musicClip) != startScreenMusic ==>
        musicClip == startScreenMusic && musicSourceVolume == Clamp01(defaultStartScreenMusicVolume * musicVolume)
        && musicStarts == old(musicStarts) + 1
      ensures !(old(musicSourceReady) && !old(musicMuted) && old(musicClip) != startScreenMusic) ==>
        musicClip == old(musicClip) && musicSourceVolume == old(musicSourceVolume) && musicStarts == old(musicStarts)
      ensures musicVolume == old(musicVolume) && musicMuted == old(musicMuted) && musicSourceReady == old(musicSourceReady)
      ensures pool == old(pool) && active == old(active) && sourceCount == old(sourceCount)
      ensures soundFXVolume == old(soundFXVolume) && soundFXMuted == old(soundFXMuted)
    {
      defaultMusicVolume := defaultStartScreenMusicVolume;
      PlayMusic(startScreenMusic, defaultStartScreenMusicVolume);
    }

    method PlayGameMusic()
      modifies this`defaultMusicVolume, this`musicClip, this`musicSourceVolume, this`musicStarts
      ensures defaultMusicVolume == defaultGameMusicVolume
      ensures old(musicSourceReady) && !old(musicMuted) && old(musicClip) != gameMusic ==>
        musicClip == gameMusic && musicSourceVolume == Clamp01(defaultGameMusicVolume * musicVolume)
        && musicStarts == old(musicStarts) + 1
      ensures !(old(musicSourceReady) && !old(musicMuted) && old(musicClip) != gameMusic) ==>
        musicClip == old(musicClip) && musicSourceVolume == old(musicSourceVolume) && musicStarts == old(musicStarts)
      ensures musicVolume == old(musicVolume) && musicMuted == old(musicMuted) && musicSourceReady == old(musicSourceReady)
      ensures pool == old(pool) && active == old(active) && sourceCount == old(sourceCount)
      ensures soundFXVolume == old(soundFXVolume) && soundFXMuted == old(soundFXMuted)
    {
      defaultMusicVolume := defaultGameMusicVolume;
      PlayMusic(gameMusic, defaultGameMusicVolume);
    }

    /** `SetMusicVolume`: the setting is clamped; the source plays it
        scaled by the current music's default volume. */
    method SetMusicVolume(volume: real)
      requires Valid()
      modifies this`musicVolume, this`musicSourceVolume
      ensures Valid() && GetMusicVolume() == Clamp01(volume)
      ensures musicSourceReady ==> musicSourceVolume == GetMusicVolume() * defaultMusicVolume
      ensures !musicSourceReady ==> musicSourceVolume == old(musicSourceVolume)
      ensures defaultMusicVolume == old(defaultMusicVolume) && musicSourceReady == old(musicSourceReady)
      ensures musicMuted == old(musicMuted) && musicClip == old(musicClip) && musicStarts == old(musicStarts)
      ensures pool == old(pool) && active == old(active) && sourceCount == old(sourceCount)
      ensures soundFXVolume == old(soundFXVolume) && soundFXMuted == old(soundFXMuted)
    {
      musicVolume := Clamp01(volume);
      if musicSourceReady {
        musicSourceVolume := musicVolume * defaultMusicVolume;
      }
    }

    /** `MusicMute`: the flag is stored, then copied to the music source;
        without a source that raises a NullReferenceException. */
    method MusicMute(muteStatus: bool) returns (raised: bool)
      requires Valid()
      modifies this`musicMuted, this`musicSourceMute
      ensures Valid() && IsMusicMuted() == muteStatus
      ensures raised <==> !musicSourceReady
      ensures !raised ==> musicSourceMute == muteStatus
      ensures raised ==> musicSourceMute == old(musicSourceMute)
      ensures musicSourceReady == old(musicSourceReady) && musicVolume == old(musicVolume)
      ensures musicClip == old(musicClip) && musicStarts == old(musicStarts)
      ensures pool == old(pool) && active == old(active) && sourceCount == old(sourceCount)
      ensures soundFXVolume == old(soundFXVolume) && soundFXMuted == old(soundFXMuted)
    {
      musicMuted := muteStatus;
      if !musicSourceReady {
        return true;
      }
      musicSourceMute := musicMuted;
      return false;
    }

    method SoundFXMute(muteStatus: bool)
      requires Valid()
      modifies this`soundFXMuted
      ensures Valid() && IsSoundFXMuted() == muteStatus && soundFXVolume == old(soundFXVolume)
      ensures pool == old(pool) && active == old(active) && sourceCount == old(sourceCount)
      ensures musicVolume == old(musicVolume) && musicMuted == old(musicMuted)
    {
      soundFXMuted := muteStatus;
    }

    method SetSoundFXVolume(volume: real)
      requires Valid()
      modifies this`soundFXVolume
      ensures Valid() && GetSoundFXVolume() == Clamp01(volume) && soundFXMuted == old(soundFXMuted)
      ensures pool == old(pool) && active == old(active) && sourceCount == old(sourceCount)
      ensures musicVolume == old(musicVolume) && musicMuted == old(musicMuted)
    {
      soundFXVolume := Clamp01(volume);
    }

    /** `PlaySoundFX`: nothing without a prefab, while muted, or with
        neither the clip nor the default clip; otherwise the front of the
        pool (or a new source when it is empty) is activated and plays
        the clip at the scaled, clamped volume. */
    method PlaySoundFX(clip: Option<Clip>, volume: real) returns (play: Option<Play>)
      requires Valid()
      modifies this`pool, this`active, this`sourceCount
      ensures Valid()
      ensures play.None? <==> !prefabAssigned || soundFXMuted || (clip.None? && defaultSoundFX.None?)
      ensures play.None? ==> pool == old(pool) && active == old(active) && sourceCount == old(sourceCount)
      ensures play.Some? ==>
        play.value.clip == (if clip.Some? then clip.value else defaultSoundFX.value)
        && play.value.volume == Clamp01(volume * soundFXVolume)
        && play.value.returnAfter == ReturnDelay(play.value.clip.length)
        && active == old(active) + {play.value.source}
        && (|old(pool)| > 0 ==>
              play.value.source == old(pool)[0] && pool == old(pool)[1..] && sourceCount == old(sourceCount))
        && (|old(pool)| == 0 ==>
              play.value.source == old(sourceCount) && pool == [] && sourceCount == old(sourceCount) + 1)
      ensures soundFXVolume == old(soundFXVolume) && soundFXMuted == old(soundFXMuted)
      ensures musicVolume == old(musicVolume) && musicMuted == old(musicMuted)
      ensures musicClip == old(musicClip) && musicStarts == old(musicStarts)
    {
      if !prefabAssigned {
        return None;
      }
      if soundFXMuted {
        return None;
      }
      var clipToPlay := if clip.Some? then clip else defaultSoundFX;
      if clipToPlay.None? {
        return None;
      }
      var source: nat;
      if |pool| > 0 {
        source := TakeFront();
      } else {
        source := ActivateFresh();
      }
      var v := Clamp01(volume * soundFXVolume);
      var length := clipToPlay.value.length;
      var life := if length > 0.0 then length else 0.2;
      play := Some(Play(source, clipToPlay.value, v, life + 0.05));
    }

    /** `GetPooledSource` with a non-empty pool: the front source is
        dequeued and activated. */
    method TakeFront() returns (source: nat)
      requires Valid() && |pool| > 0
      modifies this`pool, this`active, this`sourceCount
      ensures Valid()
      ensures source == old(pool)[0] && pool == old(pool)[1..] && active == old(active) + {source}
      ensures sourceCount == old(sourceCount)
      ensures soundFXVolume == old(soundFXVolume) && soundFXMuted == old(soundFXMuted)
      ensures musicVolume == old(musicVolume) && musicMuted == old(musicMuted)
      ensures musicClip == old(musicClip) && musicStarts == old(musicStarts)
    {
      source := pool[0];
      ghost var p := pool;
      pool := pool[1..];
      active := active + {source};
      assert forall i :: 0 <= i < |pool| ==> pool[i] == p[i + 1];
      forall s: nat | s < sourceCount
        ensures s in active || s in pool
      {
        if s !in old(active) {
          var k :| 0 <= k < |p| && p[k] == s;
          if k > 0 {
            assert pool[k - 1] == s;
          }
        }
      }
    }

    /** `GetPooledSource` with an empty pool: a new source is instantiated
        and activated. */
    method ActivateFresh() returns (source: nat)
      requires Valid() && |pool| == 0
      modifies this`active, this`sourceCount
      ensures Valid()
      ensures source == old(sourceCount) && pool == [] && active == old(active) + {source}
      ensures sourceCount == old(sourceCount) + 1
      ensures soundFXVolume == old(soundFXVolume) && soundFXMuted == old(soundFXMuted)
      ensures musicVolume == old(musicVolume) && musicMuted == old(musicMuted)
      ensures musicClip == old(musicClip) && musicStarts == old(musicStarts)
    {
      source := sourceCount;
      sourceCount := sourceCount + 1;
      active := active + {source};
    }

    /** The end of `ReturnToPoolAfter`: the source is deactivated and
        queued at the back. */
    method ReturnToPool(src: nat)
      requires Valid() && src in active
      modifies this`active, this`pool
      ensures Valid()
      ensures active == old(active) - {src} && pool == old(pool) + [src] && sourceCount == old(sourceCount)
      ensures soundFXVolume == old(soundFXVolume) && soundFXMuted == old(soundFXMuted)
      ensures musicVolume == old(musicVolume) && musicMuted == old(musicMuted)
    {
      active := active - {src};
      pool := pool + [src];
    }
  }

  lemma {:induction false} RangeSnoc(lo: nat, hi: nat)
    requires lo <= hi
    ensures Range(lo, hi + 1) == Range(lo, hi) + [hi]
  {
  }
}
