/**
  `LeaderboardManager`: the cached list of leaderboard entries, the
  decision to reuse it, its rebuild from a query snapshot, the numbered
  rows shown for it, rank lookup, and the Unix-time helpers. The snapshot
  (or the exception its query raised), `Time.realtimeSinceStartup` and
  whether the scene references and Firestore are ready are inputs.
 */
module Leaderboard {
  import opened Wrappers
  import opened Clock

  /** A `LeaderboardEntry`. */
  datatype Entry = Entry(userId: string, username: string, score: int, timestamp: int)

  /** A stored field as `DocumentSnapshot.GetValue` sees it. */
  datatype Stored<T> = Missing | Null | Present(value: T)

  /** One document of a query snapshot. */
  datatype Doc = Doc(userId: Stored<string>, username: Stored<string>, score: Stored<int>, timestamp: Stored<int>)

  /** `GetValue` raises for a missing field, and for a null number. */
  predicate Readable(d: Doc)
  {
    !d.userId.Missing? && !d.username.Missing? && d.score.Present? && d.timestamp.Present?
  }

  /** A null string becomes "" through `?? ""`. */
  function OrEmpty(s: Stored<string>): string
  {
    if s.Present? then s.value else ""
  }

  function EntryOf(d: Doc): Entry
    requires Readable(d)
  {
    Entry(OrEmpty(d.userId), OrEmpty(d.username), d.score.value, d.timestamp.value)
  }

  /** How many documents are read before the first unreadable one. */
  function ReadablePrefix(docs: seq<Doc>): (k: nat)
    ensures k <= |docs|
    ensures forall j :: 0 <= j < k ==> Readable(docs[j])
    ensures k < |docs| ==> !Readable(docs[k])
  {
    if docs == [] || !Readable(docs[0]) then 0 else 1 + ReadablePrefix(docs[1..])
  }

  /** The entries of the first k documents, in snapshot order. */
  function EntriesOf(docs: seq<Doc>, k: nat): (es: seq<Entry>)
    requires k <= ReadablePrefix(docs)
    ensures |es| == k && forall j :: 0 <= j < k ==> es[j] == EntryOf(docs[j])
  {
    if k == 0 then [] else EntriesOf(docs, k - 1) + [EntryOf(docs[k - 1])]
  }

  /** A displayed row: 1-based rank, name and score. */
  datatype Row = Row(rank: int, username: string, score: int)

  /** The rows `DisplayLeaderboard` creates for the cache. */
  function RowsOf(cache: seq<Entry>): (rows: seq<Row>)
    ensures |rows| == |cache|
    ensures forall i :: 0 <= i < |rows| ==> rows[i] == Row(i + 1, cache[i].username, cache[i].score)
  {
    if cache == [] then [] else RowsOf(cache[..|cache| - 1]) + [Row(|cache|, cache[|cache| - 1].username, cache[|cache| - 1].score)]
  }

  /** The cache is reused when the last load was of the same kind and the
      mode's own timestamp is younger than the cache lifetime. */
  predicate UsesCache(lastLoadWasDaily: bool, isDaily: bool, now: real, lastLoadTime: real, lastDailyLoadTime: real, cacheTimeSeconds: real)
  {
    lastLoadWasDaily == isDaily
    && (if isDaily then now - lastDailyLoadTime < cacheTimeSeconds else now - lastLoadTime < cacheTimeSeconds)
  }

  /** What a call of `LoadLeaderboard` did. */
  datatype LoadOutcome =
    | NotReady     // content, Firestore or the row prefab missing: nothing changes
    | CacheReused  // the cached rows are shown again
    | EmptyDaily   // no daily score yet: cache cleared, shown empty, timestamps kept
    | Loaded       // cache rebuilt and shown, timestamps updated
    | Failed       // an exception: cache holds what was read before it

  const UNLOADED_TIME: real := -999.0

  class LeaderboardManager {
    const maxDisplayRows: int
    const cacheTimeSeconds: real
    var cachedLeaderboard: seq<Entry>
    var lastLoadTime: real
    var lastDailyLoadTime: real
    var lastLoadWasDaily: bool
    /** The rows currently under the content transform. */
    var rows: seq<Row>

    constructor(maxRows: int, cacheTime: real)
      ensures maxDisplayRows == maxRows && cacheTimeSeconds == cacheTime
      ensures cachedLeaderboard == [] && rows == [] && !lastLoadWasDaily
      ensures lastLoadTime == UNLOADED_TIME && lastDailyLoadTime == UNLOADED_TIME
    {
      maxDisplayRows := maxRows;
      cacheTimeSeconds := cacheTime;
      cachedLeaderboard := [];
      lastLoadTime := UNLOADED_TIME;
      lastDailyLoadTime := UNLOADED_TIME;
      lastLoadWasDaily := false;
      rows := [];
    }

    /** `DisplayLeaderboard`: the old rows are destroyed and one row per
        cached entry is created, numbered from 1 in cache order. */
    method DisplayLeaderboard()
      modifies this
      ensures rows == RowsOf(cachedLeaderboard)
      ensures cachedLeaderboard == old(cachedLeaderboard) && lastLoadTime == old(lastLoadTime)
      ensures lastDailyLoadTime == old(lastDailyLoadTime) && lastLoadWasDaily == old(lastLoadWasDaily)
    {
      rows := [];
      var cache := cachedLeaderboard;
      for i := 0 to |cache|
        invariant cachedLeaderboard == cache && lastLoadTime == old(lastLoadTime)
        invariant lastDailyLoadTime == old(lastDailyLoadTime) && lastLoadWasDaily == old(lastLoadWasDaily)
        invariant rows == RowsOf(cache[..i])
      {
        assert cache[..i + 1][..i] == cache[..i];
        rows := rows + [Row(i + 1, cache[i].username, cache[i].score)];
      }
      assert cache[..|cache|] == cache;
    }

    /** The `foreach` over the snapshot: entries are appended in order
        until a document cannot be read. */
    method AppendEntries(docs: seq<Doc>) returns (complete: bool)
      modifies this
      requires cachedLeaderboard == []
      ensures complete <==> ReadablePrefix(docs) == |docs|
      ensures cachedLeaderboard == EntriesOf(docs, ReadablePrefix(docs))
      ensures rows == old(rows) && lastLoadTime == old(lastLoadTime)
      ensures lastDailyLoadTime == old(lastDailyLoadTime) && lastLoadWasDaily == old(lastLoadWasDaily)
    {
      var i := 0;
      while i < |docs|
        invariant i <= ReadablePrefix(docs)
        invariant cachedLeaderboard == EntriesOf(docs, i)
        invariant rows == old(rows) && lastLoadTime == old(lastLoadTime)
        invariant lastDailyLoadTime == old(lastDailyLoadTime) && lastLoadWasDaily == old(lastLoadWasDaily)
      {
        var doc := docs[i];
        if !Readable(doc) {
          return false;
        }
        cachedLeaderboard := cachedLeaderboard + [EntryOf(doc)];
        i := i + 1;
      }
      return true;
    }

    /** `LoadLeaderboard(isDaily)`, with `snapshot` the documents the query
        returned or Thrown when it raised. `now` is the clock read for the
        cache test, `loadedAt` the later read, after the query has been
        awaited, that stamps a full load. */
    method LoadLeaderboard(isDaily: bool, now: real, loadedAt: real, ready: bool, snapshot: Result<seq<Doc>>) returns (outcome: LoadOutcome)
      modifies this
      ensures !ready ==> outcome == NotReady && unchanged(this)
      ensures ready && old(UsesCache(lastLoadWasDaily, isDaily, now, lastLoadTime, lastDailyLoadTime, cacheTimeSeconds)) ==>
        outcome == CacheReused && cachedLeaderboard == old(cachedLeaderboard) && rows == RowsOf(cachedLeaderboard)
        && lastLoadTime == old(lastLoadTime) && lastDailyLoadTime == old(lastDailyLoadTime) && lastLoadWasDaily == old(lastLoadWasDaily)
      ensures ready && !old(UsesCache(lastLoadWasDaily, isDaily, now, lastLoadTime, lastDailyLoadTime, cacheTimeSeconds)) ==>
        match snapshot
        case Thrown =>
          outcome == Failed && cachedLeaderboard == [] && rows == old(rows)
          && lastLoadTime == old(lastLoadTime) && lastDailyLoadTime == old(lastDailyLoadTime) && lastLoadWasDaily == old(lastLoadWasDaily)
        case Ok(docs) =>
          if isDaily && docs == [] then
            outcome == EmptyDaily && cachedLeaderboard == [] && rows == []
            && lastLoadTime == old(lastLoadTime) && lastDailyLoadTime == old(lastDailyLoadTime) && lastLoadWasDaily == old(lastLoadWasDaily)
          else if ReadablePrefix(docs) < |docs| then
            outcome == Failed && cachedLeaderboard == EntriesOf(docs, ReadablePrefix(docs)) && rows == old(rows)
            && lastLoadTime == old(lastLoadTime) && lastDailyLoadTime == old(lastDailyLoadTime) && lastLoadWasDaily == old(lastLoadWasDaily)
          else
            outcome == Loaded && cachedLeaderboard == EntriesOf(docs, |docs|) && rows == RowsOf(cachedLeaderboard)
            && lastLoadTime == loadedAt && lastLoadWasDaily == isDaily
            && lastDailyLoadTime == (if isDaily then loadedAt else old(lastDailyLoadTime))
    {
      if !ready {
        return NotReady;
      }
      if lastLoadWasDaily == isDaily {
        if isDaily && now - lastDailyLoadTime < cacheTimeSeconds {
          DisplayLeaderboard();
          return CacheReused;
        } else if !isDaily && now - lastLoadTime < cacheTimeSeconds {
          DisplayLeaderboard();
          return CacheReused;
        }
      }
      cachedLeaderboard := [];
      if snapshot.Thrown? {
        return Failed;
      }
      var docs := snapshot.value;
      if isDaily && |docs| == 0 {
        DisplayLeaderboard();
        return EmptyDaily;
      }
      var complete := AppendEntries(docs);
      if !complete {
        return Failed;
      }
      lastLoadTime := loadedAt;
      lastLoadWasDaily := isDaily;
      if isDaily {
        lastDailyLoadTime := loadedAt;
      }
      DisplayLeaderboard();
      return Loaded;
    }

    /** `RefreshLeaderboard` as written: only the normal timestamp is reset
        before loading, so a normal refresh reloads but a daily one inside
        the daily window reuses the cache. */
    method RefreshLeaderboardAsWritten(isDaily: bool, now: real, loadedAt: real, ready: bool, snapshot: Result<seq<Doc>>) returns (outcome: LoadOutcome)
      modifies this
      ensures !ready ==>
        outcome == NotReady && lastLoadTime == UNLOADED_TIME && lastDailyLoadTime == old(lastDailyLoadTime)
        && lastLoadWasDaily == old(lastLoadWasDaily) && cachedLeaderboard == old(cachedLeaderboard) && rows == old(rows)
      ensures ready ==> outcome != NotReady
      ensures ready ==>
        (outcome == CacheReused <==>
         UsesCache(old(lastLoadWasDaily), isDaily, now, UNLOADED_TIME, old(lastDailyLoadTime), cacheTimeSeconds))
      ensures ready && isDaily && old(lastLoadWasDaily) && now - old(lastDailyLoadTime) < cacheTimeSeconds ==>
        outcome == CacheReused && cachedLeaderboard == old(cachedLeaderboard)
      ensures ready && !isDaily && cacheTimeSeconds <= now - UNLOADED_TIME ==> outcome != CacheReused
      ensures ready && isDaily && !(old(lastLoadWasDaily) && now - old(lastDailyLoadTime) < cacheTimeSeconds) ==>
        outcome != CacheReused
      ensures ready && outcome != CacheReused && snapshot.Ok? && !(isDaily && snapshot.value == [])
              && ReadablePrefix(snapshot.value) == |snapshot.value| ==>
        outcome == Loaded && cachedLeaderboard == EntriesOf(snapshot.value, |snapshot.value|)
    {
      lastLoadTime := UNLOADED_TIME;
      outcome := LoadLeaderboard(isDaily, now, loadedAt, ready, snapshot);
    }

    /** `RefreshLeaderboard` resetting the timestamp of the mode it
        refreshes as well, so that it forces a reload in both modes once
        the time since -999 exceeds the cache lifetime. */
    method RefreshLeaderboard(isDaily: bool, now: real, loadedAt: real, ready: bool, snapshot: Result<seq<Doc>>) returns (outcome: LoadOutcome)
      modifies this
      ensures !ready ==>
        outcome == NotReady && lastLoadTime == UNLOADED_TIME && lastDailyLoadTime == UNLOADED_TIME
        && lastLoadWasDaily == old(lastLoadWasDaily) && cachedLeaderboard == old(cachedLeaderboard) && rows == old(rows)
      ensures ready && cacheTimeSeconds <= now - UNLOADED_TIME ==> outcome != CacheReused && outcome != NotReady
      ensures ready && cacheTimeSeconds <= now - UNLOADED_TIME && snapshot.Ok? && !(isDaily && snapshot.value == []) && ReadablePrefix(snapshot.value) == |snapshot.value| ==>
        outcome == Loaded && cachedLeaderboard == EntriesOf(snapshot.value, |snapshot.value|)
    {
      lastLoadTime := UNLOADED_TIME;
      lastDailyLoadTime := UNLOADED_TIME;
      if cacheTimeSeconds <= now - UNLOADED_TIME {
        ResetTimestampsForceReload(lastLoadWasDaily, isDaily, now, cacheTimeSeconds);
      }
      outcome := LoadLeaderboard(isDaily, now, loadedAt, ready, snapshot);
    }

    /** `GetPlayerRank`: 1 + the index of the first entry of that user, or
        -1 when there is none (a null id matches nothing). */
    method GetPlayerRank(userId: Option<string>) returns (rank: int)
      ensures rank == -1 <==> userId.None? || forall i :: 0 <= i < |cachedLeaderboard| ==> cachedLeaderboard[i].userId != userId.value
      ensures rank != -1 ==>
        1 <= rank <= |cachedLeaderboard| && cachedLeaderboard[rank - 1].userId == userId.value
        && forall i :: 0 <= i < rank - 1 ==> cachedLeaderboard[i].userId != userId.value
    {
      for i := 0 to |cachedLeaderboard|
        invariant userId.Some? ==> forall j :: 0 <= j < i ==> cachedLeaderboard[j].userId != userId.value
      {
        if userId.Some? && cachedLeaderboard[i].userId == userId.value {
          return i + 1;
        }
      }
      return -1;
    }
  }

  /** A daily refresh inside the cache window, as written, shows the old
      daily list: with the last daily load 10 s ago and a 60 s lifetime the
      reset of the normal timestamp changes nothing. */
  lemma DailyRefreshAsWrittenReusesCache()
    ensures UsesCache(true, true, 20.0, UNLOADED_TIME, 10.0, 60.0)
  {
  }

  /** Once both timestamps are reset, no lifetime shorter than the time
      since -999 lets the cache be reused, for either mode. */
  lemma ResetTimestampsForceReload(lastLoadWasDaily: bool, isDaily: bool, now: real, cacheTimeSeconds: real)
    requires cacheTimeSeconds <= now - UNLOADED_TIME
    ensures !UsesCache(lastLoadWasDaily, isDaily, now, UNLOADED_TIME, UNLOADED_TIME, cacheTimeSeconds)
  {
  }

  /** `UnixTimeStampToDateTime`: the epoch plus that many seconds. */
  function UnixTimeStampToDateTime(unixTimeStamp: int): Result<int>
  {
    AddSeconds(UNIX_EPOCH_TICKS, unixTimeStamp)
  }

  /** `IsToday(timestamp)` against the current UTC time `now` (ticks). */
  function IsToday(timestamp: int, now: int): Result<bool>
    requires IsDateTime(now)
  {
    match UnixTimeStampToDateTime(timestamp)
    case Thrown => Thrown
    case Ok(date) => Ok(Date(date) == Date(now))
  }

  /** A timestamp is today exactly when it lies in the 86400 seconds that
      began at the last UTC midnight: its Unix day equals today's. */
  lemma IsTodayIffSameUnixDay(timestamp: int, now: int)
    requires IsDateTime(now) && now >= UNIX_EPOCH_TICKS
    requires IsDateTime(UNIX_EPOCH_TICKS + timestamp * TICKS_PER_SECOND)
    ensures IsToday(timestamp, now) ==
      Ok(timestamp / SECONDS_PER_DAY == (now - UNIX_EPOCH_TICKS) / TICKS_PER_DAY)
  {
    var t := UNIX_EPOCH_TICKS + timestamp * TICKS_PER_SECOND;
    SameDate(t, now);
    DayOfTicks(timestamp);
    EpochDayShift(now - UNIX_EPOCH_TICKS);
  }

  /** The calendar day of a Unix timestamp. */
  lemma DayOfTicks(timestamp: int)
    ensures (UNIX_EPOCH_TICKS + timestamp * TICKS_PER_SECOND) / TICKS_PER_DAY == UNIX_EPOCH_DAY + timestamp / SECONDS_PER_DAY
  {
    var q := timestamp / SECONDS_PER_DAY;
    var r := timestamp % SECONDS_PER_DAY;
    assert timestamp == q * SECONDS_PER_DAY + r;
    assert timestamp * TICKS_PER_SECOND == q * TICKS_PER_DAY + r * TICKS_PER_SECOND;
    assert 0 <= r * TICKS_PER_SECOND < TICKS_PER_DAY;
    assert UNIX_EPOCH_TICKS + timestamp * TICKS_PER_SECOND == (UNIX_EPOCH_DAY + q) * TICKS_PER_DAY + r * TICKS_PER_SECOND;
  }

  lemma EpochDayShift(x: int)
    ensures (UNIX_EPOCH_TICKS + x) / TICKS_PER_DAY == UNIX_EPOCH_DAY + x / TICKS_PER_DAY
  {
    var q := x / TICKS_PER_DAY;
    var r := x % TICKS_PER_DAY;
    assert UNIX_EPOCH_TICKS + x == (UNIX_EPOCH_DAY + q) * TICKS_PER_DAY + r;
  }
}
