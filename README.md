# Flappy Bird game scripts: a Dafny model

This project models the game logic of a Unity Flappy Bird clone. The logic sits in its C# scripts under `Assets/Scripts/`:

- **Firestore REST codec** (`FirebaseRestFirestore.cs`):
  - the hand-built JSON body that `SetDocument` writes, and `EscapeJson`;
  - the brace matcher `FindMatchingBrace`;
  - the field and value parser (`ParseFirestoreResponse`, `ParseFirestoreValue`);
  - the document splitter inside `QueryDocuments`;
  - the dictionary ↔ `FirestoreDocument` conversions.
- **REST authentication client** (`FirebaseRestAuth.cs`): its session fields and the JSON body of `PostRequest`.
- **Player profile rules** (`PlayerDataManager.cs`):
  - new-profile defaults;
  - the run and pipe counters;
  - the preference setters;
  - the daily and normal high-score update;
  - the leaderboard entry it writes.
- **Leaderboard cache** (`LeaderboardManager.cs`):
  - the reuse decision, the rebuild from a query snapshot and the 1-based row numbering;
  - rank lookup;
  - the Unix-time helpers.
- **Game-loop objects**, each a class whose fields the methods update:
  - `LogicScript`: score, game over, the new-high-score banner, the account buttons;
  - `AudioManager`: the sound-effect source pool, a FIFO queue, plus volume and mute;
  - `PipeSpawnerScript`: the spawn timer and the gap geometry;
  - `BirdScript`: jump, leaving the screen, collision death;
  - `PauseManager`: pause toggling;
  - `DailyLeaderboardTimer`: the countdown to UTC midnight.

Everything outside the program is an input, so each operation is a function of its arguments and the object's state:

- the result of an HTTP request or a Firestore query;
- "now" (`Time.realtimeSinceStartup` as a real, `DateTime.UtcNow` as a tick count);
- "today" as a date string;
- the random draws, passed as a function from draw number to a value in [0, 1);
- whether engine objects were found.

Engine effects are recorded in a few forms:

- as the boolean and numeric fields they stand for (active flags, `Time.timeScale`, volumes);
- as returned lists of effects or writes (saves to Firestore, leaderboard writes, sounds, scene reloads).

Exceptions that the scripts raise and then catch are a `Thrown` outcome (`Wrappers.Result`).

The modules follow the scripts:

| Module | Models |
|---|---|
| `FirestoreCodec` | escaping, brace matching, value and response parsing |
| `FirestoreClient` | `SetDocument`, `GetDocument`, `QueryDocuments`, the conversions |
| `FirestoreRoundTrip` | encode-then-parse |
| `RestAuth` | the REST authentication client |
| `PlayerData` | the profile and high-score rules |
| `Leaderboard` | the leaderboard cache and its helpers |
| `Logic` | `LogicScript` |
| `Audio` | `AudioManager` |
| `PipeSpawner` | `PipeSpawnerScript` |
| `Bird` | `BirdScript` |
| `Pause` | `PauseManager` |
| `DailyTimer` | `DailyLeaderboardTimer` |
| `Numbers` | 32-bit wrap-around, integer rendering, `int.TryParse`/`double.TryParse`, `Mathf.Clamp01` |
| `Strings` | `IndexOf`/`Contains` |
| `Clock` | `DateTime` ticks |
| `Engine` | `Time.timeScale` and the input actions |

## Model

| member | source | states |
|---|---|---|
| FirestoreCodec.EscapeJsonIsPerCharacter | Assets/Scripts/FirebaseRestFirestore.cs:102-105 | The four chained `Replace` calls (backslash first) do the same as escaping each character on its own: `\`, `"`, newline and CR each become their two-character escapes. |
| FirestoreCodec.EscapeJsonConcat | Assets/Scripts/FirebaseRestFirestore.cs:102-105 | Escaping distributes over concatenation. |
| FirestoreCodec.EscapeJsonShape | Assets/Scripts/FirebaseRestFirestore.cs:102-105 | The escaped text has no raw newline or CR, and is longer by exactly one character per escaped character. |
| FirestoreCodec.UnescapeEscapeJson | Assets/Scripts/FirebaseRestFirestore.cs:102-105 | Escaping is undone by the matching JSON unescape, so it loses nothing. |
| FirestoreCodec.EscapeJsonKeepsOtherCharacters | Assets/Scripts/FirebaseRestFirestore.cs:102-105 | Text with none of the four characters is unchanged. |
| FirestoreCodec.EscapeJsonLeavesTabRaw | Assets/Scripts/FirebaseRestFirestore.cs:102-105 | A tab, which section 7 of RFC 8259 requires to be escaped, passes through raw. |
| FirestoreCodec.ScanBraces | Assets/Scripts/FirebaseRestFirestore.cs:261-280 | The scan result is -1 or the index of a `}` at or after the start. |
| FirestoreCodec.MatchingBrace | Assets/Scripts/FirebaseRestFirestore.cs:256-281 | Raises (IndexOutOfRange) exactly for a negative start. It returns -1 unless `str[open] == '{'`. Any other result lies after `open` and is a `}`. |
| FirestoreCodec.FindMatchingBrace | Assets/Scripts/FirebaseRestFirestore.cs:256-281 | The loop over depth and in-string state, backslash check included, computes `MatchingBrace`. |
| FirestoreCodec.ScanBracesFirstReturn | Assets/Scripts/FirebaseRestFirestore.cs:261-280 | From a point where the depth has stayed positive, the scan returns the first later position where the depth outside quoted text falls to 0, or -1 when it never does. |
| FirestoreCodec.MatchingBraceFirstReturn | Assets/Scripts/FirebaseRestFirestore.cs:256-281 | For a `{` at `open`: the result is -1 exactly when the depth never returns to 0. Otherwise it is the first `}` where the depth returns to 0. |
| FirestoreCodec.EscapedQuoteDoesNotToggle | Assets/Scripts/FirebaseRestFirestore.cs:265-266 | A quote after a backslash does not end the string: the `}` inside `"a\"}"` is skipped. |
| FirestoreCodec.ParseFirestoreValueOutcomes | Assets/Scripts/FirebaseRestFirestore.cs:201-254 | Other outcomes of the value parser:<br>• null without any of the four tags;<br>• never null with `booleanValue`;<br>• integers always within int32;<br>• a boolean needs its tag and is true exactly when `true` occurs anywhere;<br>• the string branch wins whenever the `stringValue` tag yields quoted text. |
| FirestoreCodec.TagWithoutColonThrows | Assets/Scripts/FirebaseRestFirestore.cs:204-209 | A tag with no colon after it makes `IndexOf("\"", -1)` raise. |
| FirestoreCodec.LocateField | Assets/Scripts/FirebaseRestFirestore.cs:164-189 | One round of the field loop: every round that continues moves `pos` strictly forward within the content, so the loop ends. |
| FirestoreCodec.CollectSpec | Assets/Scripts/FirebaseRestFirestore.cs:185-186 | A name is in the result exactly when some field of that name parsed to a non-null value. Its value is that of the last such field: null values are dropped and a later duplicate overwrites. |
| FirestoreCodec.CollectSnoc | Assets/Scripts/FirebaseRestFirestore.cs:185-186 | Adding one parsed field: a null value leaves the dictionary as it was, any other sets that key. |
| FirestoreCodec.ParseFieldsThrows | Assets/Scripts/FirebaseRestFirestore.cs:182-189 | A value whose parse raises makes the whole response parse raise, whatever follows it. |
| FirestoreCodec.FieldsSpan | Assets/Scripts/FirebaseRestFirestore.cs:147-161 | The `fields` object's braces, when both are found, lie in order inside the text. |
| FirestoreCodec.ParseResponseWithoutFields | Assets/Scripts/FirebaseRestFirestore.cs:147-159 | A response without `"fields"` parses to the empty dictionary. With `"fields"` but no `{` after it, the parse raises: `FindMatchingBrace` is handed -1 before the check for -1. |
| FirestoreCodec.FieldsWithoutBraceThrows | Assets/Scripts/FirebaseRestFirestore.cs:155-159 | For instance `{"fields":1}` raises. |
| FirestoreCodec.NextField | Assets/Scripts/FirebaseRestFirestore.cs:166-181 | The index arithmetic of one loop round computes `LocateField`. |
| FirestoreCodec.ScanFieldsLoop | Assets/Scripts/FirebaseRestFirestore.cs:161-190 | The `while (pos < …)` loop builds the dictionary of the scanned fields. |
| FirestoreCodec.ParseFirestoreResponse | Assets/Scripts/FirebaseRestFirestore.cs:142-199 | The whole parse computes `ParseResponse`, including its raise cases. |
| FirestoreCodec.ParseResponseLoop | Assets/Scripts/FirebaseRestFirestore.cs:142-199 | The same loop, with any value parser in place of `ParseFirestoreValue`. |
| FirestoreCodec.FindFieldsSpan | Assets/Scripts/FirebaseRestFirestore.cs:147-159 | Finding `"fields"`, its `{` and the matching `}` computes `FieldsSpan`. |
| FirestoreClient.DocumentBodyThrowsIffNull | Assets/Scripts/FirebaseRestFirestore.cs:44-67 | Building the body raises exactly when some value is null (its `ToString()` dereferences null). |
| FirestoreClient.JoinEntriesSnoc | Assets/Scripts/FirebaseRestFirestore.cs:48-66 | Appending an entry adds a comma only when earlier entries exist, so commas appear only between entries. |
| FirestoreClient.SetDocument | Assets/Scripts/FirebaseRestFirestore.cs:39-100 | The `json +=` loop sends `{"fields":{`, then one `"key":{…}` per entry with commas between, then `}}`, to the document URL:<br>• strings become escaped `stringValue`;<br>• integers become quoted `integerValue`;<br>• reals become quoted `doubleValue`;<br>• booleans become bare `true`/`false`;<br>• anything else becomes an escaped `stringValue` of its text.<br>A null value raises before anything is sent. The outcome is the request's success. |
| FirestoreClient.GetDocument | Assets/Scripts/FirebaseRestFirestore.cs:107-140 | The dictionary is returned exactly when the request succeeded and its text parses. A failed request or a raising parse gives null. |
| FirestoreClient.FindRound | Assets/Scripts/FirebaseRestFirestore.cs:313-334 | One round of the splitter finds `"name"` at or after `docIndex`. An enclosed round has a `{` before the name and its matching `}` after that brace. |
| FirestoreClient.NextDocIndexProgress | Assets/Scripts/FirebaseRestFirestore.cs:322-352 | The corrected next index always moves past the position searched from, so the splitter ends. It equals the index as written whenever the brace found encloses the name. |
| FirestoreClient.AsWrittenRepeats | Assets/Scripts/FirebaseRestFirestore.cs:313-352 | As written, when the nearest `{` before a name closes before that name, the next round finds the same name and brace and sets the same `docIndex` again. |
| FirestoreClient.AsWrittenStallsOnExample | Assets/Scripts/FirebaseRestFirestore.cs:309-353 | On `{"a":{},"name":1}` the loop as written sets `docIndex` to 7 from 0, and then to 7 again from 7. |
| FirestoreClient.AsWrittenSticks | Assets/Scripts/FirebaseRestFirestore.cs:313-352 | As written, once a round's brace closes before its name, the round from one past that brace finds the same brace again, and it still closes before the name then found. |
| FirestoreClient.StuckForever | Assets/Scripts/FirebaseRestFirestore.cs:313-352 | As written, a round found from one past its own document's closing brace sets that same `docIndex` again, so unless that document's parse raises, the loop does not end within any number of rounds. |
| FirestoreClient.AsWrittenNeverEnds | Assets/Scripts/FirebaseRestFirestore.cs:309-353 | From such a round, for any document parser, unless its document's parse raises, the loop as written does not end within any number of rounds. |
| FirestoreClient.AsWrittenAgrees | Assets/Scripts/FirebaseRestFirestore.cs:309-353 | Whenever the loop as written ends, its documents (or its raise) are those of the corrected splitter. |
| FirestoreClient.SplitDocumentsNonEmpty | Assets/Scripts/FirebaseRestFirestore.cs:340-346 | Every document kept has at least one field. |
| FirestoreClient.QueryRound | Assets/Scripts/FirebaseRestFirestore.cs:313-352 | Each round either stops or moves `docIndex` strictly forward. Stopping means no further name, or a raise. The documents gathered so far, followed by those still to be split, are always the final list. |
| FirestoreClient.QueryDocuments | Assets/Scripts/FirebaseRestFirestore.cs:283-370 | The splitter loop returns every enclosing object that parses with at least one field, in order. A failed request gives an empty list, and so does a parse that raises in any round, through the catch. |
| FirestoreClient.ConvertToFirestoreDocument | Assets/Scripts/FirebaseRestFirestore.cs:423-448 | The fields have exactly the dictionary's keys, each mapped to its converted value. |
| FirestoreClient.ConvertFromFirestoreDocument | Assets/Scripts/FirebaseRestFirestore.cs:450-487 | A null `fields` gives an empty dictionary. Otherwise the keys are those whose value converts, with the converted values. |
| FirestoreClient.ConversionRoundTrip | Assets/Scripts/FirebaseRestFirestore.cs:423-487 | Converting there and back keeps non-empty strings, int32 integers and booleans. |
| FirestoreClient.ConversionLosses | Assets/Scripts/FirebaseRestFirestore.cs:423-487 | The cases where converting there and back loses the value:<br>• an empty string comes back as `false`;<br>• 2^31 wraps to -2^31;<br>• another value comes back as `false`. |
| FirestoreRoundTrip.DocumentBodyRoundTrip | Assets/Scripts/FirebaseRestFirestore.cs:44-67 | Consider keys and strings with no `"`, `\`, newline or CR, and values that are strings, int32 integers or booleans. The body `SetDocument` builds then parses (lines 142-254) to the collected fields of the entries. |
| FirestoreRoundTrip.DocumentBodyRoundTripFields | Assets/Scripts/FirebaseRestFirestore.cs:142-254 | With distinct keys as well, the parsed dictionary has exactly the original keys, each with its original value. |
| RestAuth.InitialSessionSignedOut | Assets/Scripts/FirebaseRestAuth.cs:187-194 | The session after loading has empty token, id and email, is not anonymous and is not signed in. |
| RestAuth.AnonymousSignsIn | Assets/Scripts/FirebaseRestAuth.cs:105-114 | An anonymous sign-in is signed in and anonymous, and its token is `anonymous_` + its user id. |
| RestAuth.SignOutIdempotent | Assets/Scripts/FirebaseRestAuth.cs:116-126 | After sign-out nobody is signed in and the session is not anonymous. Signing out twice equals signing out once. |
| RestAuth.AuthResponseEffect | Assets/Scripts/FirebaseRestAuth.cs:54-71 | A missing response returns false and keeps the session. A present response copies token, id and email, clears the anonymous flag and returns true. The session is then signed in exactly when the token is non-empty. |
| RestAuth.JoinRequestEntriesSnoc | Assets/Scripts/FirebaseRestAuth.cs:131-148 | Appending an entry adds a comma only between entries. |
| RestAuth.PostRequestBody | Assets/Scripts/FirebaseRestAuth.cs:128-148 | The `json +=` loop builds `{`, then each `"key":value` joined by commas, then `}`. Strings are quoted unescaped, booleans are `true`/`false` and other values are raw. |
| RestAuth.FirebaseRestAuth.constructor | Assets/Scripts/FirebaseRestAuth.cs:37-41 | The key is stored and the session is the one `LoadTokenFromStorage` leaves. |
| RestAuth.FirebaseRestAuth.SignInAnonymously | Assets/Scripts/FirebaseRestAuth.cs:105-114 | Returns true. It sets id and token as `AfterAnonymous` says, and the key is unchanged. |
| RestAuth.FirebaseRestAuth.SignOut | Assets/Scripts/FirebaseRestAuth.cs:116-126 | Token, id and email become null and the anonymous flag false. |
| RestAuth.FirebaseRestAuth.ApplyAuthResponse | Assets/Scripts/FirebaseRestAuth.cs:54-71 | The new session and the result are those of `AfterAuthResponse`. |
| RestAuth.FirebaseRestAuth.SignUpWithEmailPassword | Assets/Scripts/FirebaseRestAuth.cs:43-72 | Posts the e-mail, password and `returnSecureToken: true` to the sign-up URL with the key, then applies the response. |
| RestAuth.FirebaseRestAuth.SignInWithEmailPassword | Assets/Scripts/FirebaseRestAuth.cs:74-103 | The same as sign-up, against the password sign-in URL. |
| PlayerData.NewUserProfileFresh | Assets/Scripts/PlayerDataManager.cs:54-66 | A new profile has zero scores and counters, today's date, the given name and e-mail, and the default volumes and mutes of `PlayerProfile`. |
| PlayerData.Incremented | Assets/Scripts/PlayerDataManager.cs:91-105 | `totalRuns++`/`totalPipes++` changes only its own counter. Below int32's maximum it adds exactly 1, and at the maximum it wraps. |
| PlayerData.WithPreference | Assets/Scripts/PlayerDataManager.cs:132-158 | Each setter sets its own field and changes no other field. |
| PlayerData.WithPreferenceIdempotent | Assets/Scripts/PlayerDataManager.cs:132-158 | Setting a preference twice equals setting it once. |
| PlayerData.HighScoreUpdate | Assets/Scripts/PlayerDataManager.cs:194-224 | Daily mode:<br>• the date becomes today;<br>• the score becomes the maximum of the base and the new score, where the base is the old score on the same date and 0 otherwise;<br>• it improves exactly when the score beats the base;<br>• no other field changes.<br>Normal mode:<br>• the high score becomes the maximum and never decreases;<br>• it improves exactly when the score beats it;<br>• no other field changes. |
| PlayerData.HighScoreUpdateIdempotent | Assets/Scripts/PlayerDataManager.cs:194-224 | Submitting the same score again, on the same day, improves nothing and changes nothing. |
| PlayerData.StaleResetNotSaved | Assets/Scripts/PlayerDataManager.cs:200-213 | A stale date with a non-positive score resets the daily score in memory but reports no improvement, so nothing is saved. |
| PlayerData.HighScoreWrites | Assets/Scripts/PlayerDataManager.cs:202-222 | A save and a leaderboard write happen exactly on an improvement. The entry carries the uid, the username and the new score. |
| PlayerData.PlayerProfile.constructor | Assets/Scripts/PlayerDataManager.cs:10-29 | A profile holds the given field values. |
| PlayerData.PlayerDataManager.CreateNewUser | Assets/Scripts/PlayerDataManager.cs:54-66 | Sets the uid and a fresh new profile, and saves it. |
| PlayerData.PlayerDataManager.LoadOrCreateUser | Assets/Scripts/PlayerDataManager.cs:68-84 | A stored profile is loaded without a write. A missing one becomes the default profile and is saved. |
| PlayerData.PlayerDataManager.AddCount | Assets/Scripts/PlayerDataManager.cs:91-105 | Without a profile: no write. With one: the counter is incremented in place and the profile is saved. |
| PlayerData.PlayerDataManager.UpdatePreference | Assets/Scripts/PlayerDataManager.cs:132-158 | Without a profile: no write. With one: the field is set in place and the profile is saved. |
| PlayerData.PlayerDataManager.UpdateLeaderboardEntry | Assets/Scripts/PlayerDataManager.cs:162-192 | Writes uid, username, the mode's high score and the timestamp:<br>• daily mode writes to `leaderboards/daily/<today>`;<br>• normal mode writes to `leaderboards/normal/scores`.<br>Without a profile it writes nothing. |
| PlayerData.PlayerDataManager.TryUpdateHighScore | Assets/Scripts/PlayerDataManager.cs:194-224 | The profile becomes `HighScoreUpdate` of the old one. The writes are `HighScoreWrites`. Without a profile nothing happens. |
| Leaderboard.ReadablePrefix | Assets/Scripts/LeaderboardManager.cs:109-140 | Counts the documents read before the first one whose `GetValue` raises. |
| Leaderboard.EntriesOf | Assets/Scripts/LeaderboardManager.cs:109-140 | The entries of the readable documents, in snapshot order. |
| Leaderboard.RowsOf | Assets/Scripts/LeaderboardManager.cs:170-183 | One row per cache entry. Row i has rank i + 1 and the entry's name and score. |
| Leaderboard.LeaderboardManager.constructor | Assets/Scripts/LeaderboardManager.cs:22-29 | The cache starts empty and both timestamps start at -999. |
| Leaderboard.LeaderboardManager.DisplayLeaderboard | Assets/Scripts/LeaderboardManager.cs:156-186 | The rows become `RowsOf` the cache, and nothing else changes. |
| Leaderboard.LeaderboardManager.AppendEntries | Assets/Scripts/LeaderboardManager.cs:109-140 | Appends entries in order until a document cannot be read. It reports whether all documents were read. |
| Leaderboard.LeaderboardManager.LoadLeaderboard | Assets/Scripts/LeaderboardManager.cs:39-154 | The outcomes of one load:<br>• not ready: nothing changes;<br>• the cache is reused exactly when the last load was of the same mode and that mode's own timestamp is younger than the lifetime; the rows are then redrawn;<br>• otherwise the cache is cleared;<br>• a raising query leaves the cache empty;<br>• an empty daily result is shown empty, with the timestamps kept;<br>• an unreadable document leaves the entries read before it, with the timestamps kept;<br>• a full load rebuilds the cache in snapshot order, sets `lastLoadWasDaily`, stamps `lastLoadTime` and (daily only) `lastDailyLoadTime` with the clock read after the query, and shows the rows. |
| Leaderboard.LeaderboardManager.RefreshLeaderboardAsWritten | Assets/Scripts/LeaderboardManager.cs:188-192 | Only `lastLoadTime` is reset, then the load runs:<br>• not ready: `NotReady`, and only `lastLoadTime` is reset;<br>• ready: the cache is reused exactly when the last load was of the same mode and that mode's timestamp is within the lifetime, with `lastLoadTime` now -999;<br>• so a normal refresh never reuses the cache once the lifetime is at most `now + 999`, while a daily refresh within the daily window reuses the old cache;<br>• otherwise a complete, non-empty snapshot is loaded. |
| Leaderboard.LeaderboardManager.RefreshLeaderboard | Assets/Scripts/LeaderboardManager.cs:188-192 | With both timestamps reset, a ready refresh never reuses the cache, once the time since -999 exceeds the lifetime. A full snapshot is then loaded. When not ready, both timestamps are -999 and the mode flag, the cache and the rows are kept. |
| Leaderboard.LeaderboardManager.GetPlayerRank | Assets/Scripts/LeaderboardManager.cs:194-204 | Returns -1 exactly when the id is null or absent. Otherwise it returns 1 + the index of the first entry with that id, which lies in [1, count]. |
| Leaderboard.DailyRefreshAsWrittenReusesCache | Assets/Scripts/LeaderboardManager.cs:72-86 | With the last daily load 10 s ago, a 60 s lifetime and `lastLoadTime` reset, the daily cache is still reused. |
| Leaderboard.ResetTimestampsForceReload | Assets/Scripts/LeaderboardManager.cs:72-86 | With both timestamps at -999, neither mode reuses the cache. |
| Leaderboard.IsTodayIffSameUnixDay | Assets/Scripts/LeaderboardManager.cs:205-216 | A timestamp is today exactly when its Unix day (seconds / 86400) equals today's UTC day. |
| Clock.Date | Assets/Scripts/DailyLeaderboardTimer.cs:48 | `.Date` is the midnight at or before the time, less than a day before it. |
| Clock.AddOneDay | Assets/Scripts/DailyLeaderboardTimer.cs:48 | `AddDays(1)` adds a day of ticks, and raises beyond `DateTime.MaxValue`. |
| Clock.AddSeconds | Assets/Scripts/LeaderboardManager.cs:211-216 | `AddSeconds` adds that many seconds of ticks, and raises outside the `DateTime` range. |
| Logic.HighScoreOf | Assets/Scripts/LogicScript.cs:223-229 | With no profile the high score is 0. Otherwise it is the daily or normal high score, by mode. |
| Logic.BannerIffRecordReached | Assets/Scripts/LogicScript.cs:179-207 | For a positive score, the banner shows exactly when the score reaches the high score it is compared with. For daily mode that is 0 on a new day. |
| Logic.TieShowsBannerWithoutSave | Assets/Scripts/LogicScript.cs:173-186 | A score equal to the normal record shows the banner but saves nothing. |
| Logic.NoProfileNoBanner | Assets/Scripts/LogicScript.cs:200-207 | Without a profile the banner never shows. |
| Logic.LogicScript.LoadHighScoreFromProfile | Assets/Scripts/LogicScript.cs:231-242 | With the managers present, the high score and its label are the current mode's. Otherwise the label reads that there is no high score. Only `highScore` and its label may change. |
| Logic.LogicScript.Start | Assets/Scripts/LogicScript.cs:101-123 | The score becomes 0. A signed-in player sees their high score, and the profile load starts when no profile is loaded yet. Only the score, the high score and their labels may change. |
| Logic.LogicScript.AddScore | Assets/Scripts/LogicScript.cs:153-157 | The score increases by exactly `amount`, with int32 wrap-around, and the label shows it. Only the score and its label may change. |
| Logic.LogicScript.GameOver | Assets/Scripts/LogicScript.cs:159-222 | The steps of game over:<br>• the game freezes (time scale 0, input switched to play-again);<br>• one run is recorded and saved;<br>• the score is submitted for the mode;<br>• the banner shows exactly on a positive score that reaches the new high score;<br>• signed-in members never see the account buttons, and see the e-mail verification prompt when their e-mail is unverified;<br>• guests get the account buttons only with the banner;<br>• the high score shown is the current one. Of the script's own fields, only the game-over flag and screen, the high score and its label, and the banner and button fields set by `ShowResult` may change. `verifyEmailText` and the two canvases are kept. |
| Logic.LogicScript.RecordRun | Assets/Scripts/LogicScript.cs:171-177 | The writes are the run save followed by the high-score writes of the counted profile. |
| Logic.LogicScript.ShowResult | Assets/Scripts/LogicScript.cs:179-218 | The banner and the button visibility for members and guests. Only the banner and button fields may change. |
| Logic.LogicScript.RestartGame | Assets/Scripts/LogicScript.cs:244-251 | Sets the time scale to 1, plays the press sound and reloads the scene. |
| Logic.LogicScript.OnPlayAgain | Assets/Scripts/LogicScript.cs:297-301 | Restarts only when the game is over and the action was performed. Otherwise nothing happens. |
| Audio.ReturnDelay | Assets/Scripts/AudioManager.cs:198-202 | A source returns after its clip length plus 0.05, or after 0.25 when the length is not positive. |
| Audio.AudioManager.Awake | Assets/Scripts/AudioManager.cs:33-65 | Enqueues exactly `poolSize` new inactive sources behind the pool, in order, and readies the looping music source. With a missing prefab and a positive pool size the first `Instantiate` raises: nothing is enqueued, and the music source is neither readied nor set to loop. Only the pool, the source count and the music source's ready and loop flags may change. |
| Audio.AudioManager.PlayMusic | Assets/Scripts/AudioManager.cs:68-90 | Nothing happens without a music source, when muted, or when the clip is already current. Otherwise the clip is set and started. |
| Audio.AudioManager.PlayStartScreenMusic | Assets/Scripts/AudioManager.cs:93-97 | Sets the default music volume to the start-screen level, then calls `PlayMusic` with the start-screen clip. Only the default music volume and the music source's clip, volume and start count may change. |
| Audio.AudioManager.PlayGameMusic | Assets/Scripts/AudioManager.cs:99-103 | Sets the default music volume to the game level, then calls `PlayMusic` with the game clip. Only the default music volume and the music source's clip, volume and start count may change. |
| Audio.AudioManager.SetMusicVolume | Assets/Scripts/AudioManager.cs:111-118 | The stored volume is the value clamped to [0, 1]. The source plays it scaled by the default volume. Only the music volume setting and the music source's volume may change. |
| Audio.AudioManager.MusicMute | Assets/Scripts/AudioManager.cs:125-140 | The flag is stored, and the getter returns it. Without a music source the assignment raises. Only the music mute flag and the music source's mute flag may change. |
| Audio.AudioManager.SoundFXMute | Assets/Scripts/AudioManager.cs:218-221 | The flag is stored, and the getter returns it. No other field changes. |
| Audio.AudioManager.SetSoundFXVolume | Assets/Scripts/AudioManager.cs:223-226 | The stored volume is the value clamped to [0, 1]. No other field changes. |
| Audio.AudioManager.PlaySoundFX | Assets/Scripts/AudioManager.cs:142-208 | Nothing is played, and the pool is untouched, exactly when the prefab is missing, effects are muted, or neither clip exists. Otherwise:<br>• the front of the pool is taken, or a new source when the pool is empty;<br>• the source becomes active;<br>• it plays at `Clamp01(volume * soundFXVolume)`;<br>• it is scheduled to return after `ReturnDelay`. Only the pool, the active set and the source count may change. |
| Audio.AudioManager.TakeFront | Assets/Scripts/AudioManager.cs:173 | Dequeues the front source and activates it. Only the pool and the active set may change. |
| Audio.AudioManager.ActivateFresh | Assets/Scripts/AudioManager.cs:173-175 | With an empty pool, a new source is created and activated. Only the active set and the source count may change. |
| Audio.AudioManager.ReturnToPool | Assets/Scripts/AudioManager.cs:210-215 | An active source is deactivated and enqueued at the back. Only the pool and the active set may change. |
| PipeSpawner.GapSize | Assets/Scripts/PipeSpawnerScript.cs:95-102 | For a draw in [0, 1), the gap lies in [6, 10). |
| PipeSpawner.CentreY | Assets/Scripts/PipeSpawnerScript.cs:126 | With `minCenterY <= maxCenterY`, the centre lies between them. |
| PipeSpawner.DrawsPerSpawn | Assets/Scripts/PipeSpawnerScript.cs:81-102 | A spawn uses at most two draws. |
| PipeSpawner.SpawnCountIsFloor | Assets/Scripts/PipeSpawnerScript.cs:57-66 | A count n with n·rate ≤ t < (n+1)·rate is ⌊t / rate⌋. |
| PipeSpawner.PipeSpawnerScript.UpdateCameraBounds | Assets/Scripts/PipeSpawnerScript.cs:69-76 | The bounds are the camera y ± `orthographicSize`, and the centre limits are the bounds ∓ half the gap. |
| PipeSpawner.PipeSpawnerScript.SpawnPipe | Assets/Scripts/PipeSpawnerScript.cs:79-142 | Without a prefab or mode manager: no draw, no pipe. Without the child objects: one draw (the gap), no pipe. Otherwise:<br>• two draws, gap first, then Y;<br>• the bounds are updated;<br>• one pipe is placed at the drawn centre, with top and bottom offsets ±(gap/2 + h/2), the middle collider `gapSize` high, and its width unchanged.<br>The earlier pipes are kept. The pipe heights change only when the child objects are found. Only the draw count, the gap, the bounds, the heights and the pipe list may change. |
| PipeSpawner.PipeSpawnerScript.PlacePipe | Assets/Scripts/PipeSpawnerScript.cs:104-140 | The placement once the gap is drawn: one Y draw, new bounds and one well-placed pipe appended. |
| PipeSpawner.PipeSpawnerScript.Start | Assets/Scripts/PipeSpawnerScript.cs:29-50 | Without the mode manager no field changes. Otherwise:<br>• the bounds are the camera y ± `orthographicSize`;<br>• one spawn is made and the earlier pipes are kept;<br>• without a prefab the gap and heights are kept, and the centre limits use that gap;<br>• with a prefab the gap is drawn first;<br>• without the child objects the pipe is unplaced, and the limits use the previous gap;<br>• with them the limits use the new gap, and the new pipe is well placed at the drawn centre with the prefab's heights. |
| PipeSpawner.PipeSpawnerScript.Update | Assets/Scripts/PipeSpawnerScript.cs:53-68 | The frame time is added to the timer. From a non-negative total, `spawnPipe` is then called ⌊(timer + dt) / rate⌋ times and the timer ends in [0, rate). The draw and pipe counts grow accordingly and the earlier pipes stay. With no spawn, only the timer changes. |
| PipeSpawner.PipeSpawnerScript.SpawnRound | Assets/Scripts/PipeSpawnerScript.cs:59-65 | One loop pass: the timer drops by one period and stays non-negative, and the floor of timer / rate drops by one. |
| Bird.UpdateEvents | Assets/Scripts/BirdScript.cs:42-55 | A dead bird does nothing. Game over is called exactly when a live bird is out of bounds, and the jump sound plays exactly when a live bird jumps. |
| Bird.OnBoundSurvives | Assets/Scripts/BirdScript.cs:50-53 | A position exactly on either bound is not out of bounds. |
| Bird.BirdScript.constructor | Assets/Scripts/BirdScript.cs:34-39 | The bird starts alive. |
| Bird.BirdScript.UpdateCameraBounds | Assets/Scripts/BirdScript.cs:66-70 | The bounds are the camera y ± `orthographicSize`. |
| Bird.BirdScript.Die | Assets/Scripts/BirdScript.cs:72-77 | The bird is dead, the death sound plays and game over is called. |
| Bird.BirdScript.Update | Assets/Scripts/BirdScript.cs:42-55 | A live jump sets the velocity to (0, 10). A live bird out of bounds dies. Nothing brings the bird back to life. |
| Bird.BirdScript.OnCollisionEnter2D | Assets/Scripts/BirdScript.cs:57-64 | A collision with layer 6 kills the bird whatever its state. Other layers change nothing. |
| Pause.Toggled | Assets/Scripts/PauseManager.cs:35-46 | Toggling flips `isPaused`. |
| Pause.ToggleTwice | Assets/Scripts/PauseManager.cs:35-62 | A toggle always leaves a consistent state: screen, button and time scale agree with `isPaused`. Two toggles give back any consistent state. |
| Pause.PauseManager.Pause | Assets/Scripts/PauseManager.cs:48-54 | Paused, time scale 0, paused screen shown, pause button hidden. |
| Pause.PauseManager.Resume | Assets/Scripts/PauseManager.cs:56-62 | Running, time scale 1, paused screen hidden, pause button shown. |
| Pause.PauseManager.TogglePause | Assets/Scripts/PauseManager.cs:35-46 | The state becomes the toggle of the old state. |
| Pause.PauseManager.GoHome | Assets/Scripts/PauseManager.cs:64-68 | The time scale becomes 1. It can change nothing else, `isPaused` included. |
| Pause.PauseManager.QuitGame | Assets/Scripts/PauseManager.cs:69-73 | The time scale becomes 1. It can change nothing else. |
| DailyTimer.Remaining | Assets/Scripts/DailyLeaderboardTimer.cs:45-51 | The time left is next UTC midnight minus now, in (0, 24 h]. It raises only past the last representable day. |
| DailyTimer.CountdownOf | Assets/Scripts/DailyLeaderboardTimer.cs:51-57 | Hours ≤ 24 and minutes, seconds < 60, with h·3600 + m·60 + s the truncated seconds left. Hours is 24 exactly when a full day remains. |
| DailyTimer.Pad2 | Assets/Scripts/DailyLeaderboardTimer.cs:54 | `D2` gives at least two digits with the number's value, and exactly two below 100. |
| DailyTimer.CountdownTextRoundTrip | Assets/Scripts/DailyLeaderboardTimer.cs:54-59 | The text is `Daily Reset In: ` followed by `hh:mm:ss`. Reading its three fields back gives the truncated seconds left. |
| DailyTimer.MidnightShowsFullDay | Assets/Scripts/DailyLeaderboardTimer.cs:45-57 | Exactly at midnight the countdown is 24:00:00. |
| DailyTimer.DailyLeaderboardTimer.Start | Assets/Scripts/DailyLeaderboardTimer.cs:62-81 | A text found by tag is assigned, and an assigned text is hidden. |
| DailyTimer.DailyLeaderboardTimer.UpdateCountdown | Assets/Scripts/DailyLeaderboardTimer.cs:40-60 | With a text, it is set to the countdown text. A raise is reported, and without a text nothing changes. |
| DailyTimer.DailyLeaderboardTimer.StartDailyCountdown | Assets/Scripts/DailyLeaderboardTimer.cs:18-29 | Without the text nothing changes. Otherwise counting starts, the text is shown and refreshed. When that refresh raises, the text is kept. Only the counting flag, the text's visibility and the text may change. |
| DailyTimer.DailyLeaderboardTimer.StopDailyCountdown | Assets/Scripts/DailyLeaderboardTimer.cs:31-38 | Counting stops and an assigned text is hidden. |
| DailyTimer.DailyLeaderboardTimer.Update | Assets/Scripts/DailyLeaderboardTimer.cs:10-16 | The text is refreshed only while counting down, with a text assigned and no raise. In every other case it is kept, and only the text may change. |
| Numbers.Wrap32 | Assets/Scripts/LogicScript.cs:155 | Int32 wrap-around: the result is in range, equal to the input when that is in range, and congruent to it mod 2^32. |
| Numbers.ParseIntegerOfIntToString | Assets/Scripts/FirebaseRestFirestore.cs:216-229 | `int.TryParse` of a rendered integer gives it back exactly when it is in range. |
| Numbers.ParseDecimalOfIntToString | Assets/Scripts/FirebaseRestFirestore.cs:232-245 | `double.TryParse` of a rendered integer gives its value. |
| Numbers.Clamp01 | Assets/Scripts/AudioManager.cs:113 | The result lies in [0, 1]. Values inside are kept, and values outside go to the nearer end. |

## Left out

**External systems and the engine**
- HTTP and SDK traffic: the request and its answer are inputs. This covers `UnityWebRequest` and the Firestore SDK calls of `PlayerDataManager` and `LeaderboardManager`.
- Scheduling is left out: coroutines, `async`/`await`, the `Task.Delay` waits and the Firestore-readiness retries in `LoadLeaderboard`.
- `ReturnToPoolAfter`'s wait is the returned delay, and the return itself is the explicit `ReturnToPool`.
- `DateTime.UtcNow`, `System.Random` and the seed hash of `GameModeManager` are inputs.
- PlayerPrefs storage (`SaveTokenToStorage`) and `Debug.Log` output are I/O, so they are left out. `LoadTokenFromStorage` is only the reset of the session fields.
- Engine effects are boolean and numeric fields or effect lists: `SetActive`, `Instantiate`, `Destroy`, scene loading, input-action enabling, `Application.Quit`.
- Singleton `Instance` lookups are booleans or constructor arguments. The `AudioListener` lookup in `AudioManager.Awake` is left out.

**Scripts not modelled**
- `AuthManager.cs`, `GameModeManager.cs` and the UI scripts are not part of this model: they are SDK wrappers and engine glue. Their results enter as inputs (signed in, guest, e-mail verified, mode).
- `LogicScript`'s account flows (`CreateAccount`, `SignIn`, `ResendEmail`) and `SyncGuestScoresToAccount` are left out: they only chain SDK calls.
- `AudioManager`'s music pause and unpause calls are left out: they only call the engine.

**Parsing, number formats and encoding**
- `ParseSingleDocument` (`FirebaseRestFirestore.cs:372-421`) is the same code as `ParseFirestoreResponse` without the log calls. It is not called anywhere. `FirestoreCodec.ParseFirestoreResponse` stands for both, so "both return the same dictionary" holds by construction.
- FirestoreCodec.ParseFirestoreValue: `int.TryParse` is modelled as an optional sign (`-` or `+`) followed by digits, within range. The leading and trailing whitespace that .NET accepts is not modelled.
- FirestoreCodec.ParseFirestoreValue: `double.TryParse` is modelled as an optional sign (`-` or `+`), digits and an optional fraction. Whitespace, exponents, thousands and culture-specific separators, `NaN` and `Infinity`, and binary rounding are left out, and reals are exact.
- Strings.IndexFrom: .NET's `IndexOf(string)` and `IndexOf(string, int)` are culture-sensitive, one-character patterns included; the model searches ordinally. The two agree on text without ignorable or combining characters (a soft hyphen U+00AD, say). The same holds for every member built on it: FirestoreCodec.TaggedText, FirestoreCodec.LocateField, FirestoreCodec.NextField, FirestoreCodec.FieldsSpan, FirestoreCodec.ParseResponseWithoutFields and FirestoreClient.FindRound.
- FirestoreClient.QueryDocuments: runs the corrected splitter, whose next index never falls behind the name found. As written, the loop never ends once a round's brace closes before its name, unless that round's document raises, which gives `[]` in both. FirestoreClient.AsWrittenAgrees shows that wherever the loop as written ends, it returns what the model returns.
- FirestoreClient.SetDocument: `double`/`float` values and values of other types carry the text their `ToString()` renders, because that rendering depends on culture.
- FirestoreClient.SetDocument: the distinction between `int` and `long` values is left out; both are one unbounded integer.
- FirestoreRoundTrip.DocumentBodyRoundTrip: covers only string, int32 and boolean values, with keys and strings free of characters that need escaping. Doubles do not round-trip exactly. Keys are sent unescaped. The parser does not undo `EscapeJson`. The parser's tag search would also misread strings that contain a quote or a tag name.
- Numbers.Clamp01: works on exact reals, so float rounding is not modelled.
- PipeSpawner.GapSize, PipeSpawner.PipeSpawnerScript.Update: Unity's `float` is modelled as an exact real, so single-precision rounding is left out. Two promises hold only over exact reals:
  - The gap is `(float)(6 + NextDouble() · 4)` (`PipeSpawnerScript.cs:102`). A draw within about 2⁻²³ of 1 rounds up to exactly `10.0f`, so the program can give a gap equal to the maximum. GapSize, PipeSpawner.WellPlaced and every spawn contract built on them promise a gap below 10.
  - The timer adds `Time.deltaTime` and subtracts `spawnRate` in `float` (lines 57-63). The running timer drifts, so the source's spawn count can differ by one from the exact ⌊(timer + dt) / rate⌋ that Update and PipeSpawner.SpawnCountIsFloor state.
  - The same exact-real reading applies to Bird's camera bounds and out-of-bounds test and to every volume in `AudioManager`.

**Timing and deliberately weaker contracts**
- PipeSpawner.PipeSpawnerScript.Update: requires `spawnRate > 0`. With a rate of 0 or less, the source's `while (timer >= spawnRate)` loop never ends once the timer is non-negative, so that case is a hang and is not modelled.
- PipeSpawner.PipeSpawnerScript.Update: the floor count and the final timer range are stated for a non-negative `timer + deltaTime`. The timer starts at 0 and frame times are non-negative.
- Leaderboard.LeaderboardManager.RefreshLeaderboard: the promise that the cache is never reused is stated only when the cache lifetime is at most `now + 999` seconds. With a longer lifetime, the -999 reset cannot force a reload.
- Leaderboard.LeaderboardManager.LoadLeaderboard: the readiness checks are left out as separate steps. Whether the content, Firestore and the row prefab are ready is one input.
- PlayerData.PlayerDataManager.TryUpdateHighScore: one `today` and one `timestamp` stand for three separate `DateTime.UtcNow` reads: the profile date at `PlayerDataManager.cs:200`, and the entry's timestamp (line 168) and collection date (line 180) in `UpdateLeaderboardEntry`. Just after midnight UTC the source can stamp the profile with one date and write to the daily collection of the next; that case is not modelled.
- PipeSpawner.PipeSpawnerScript.SpawnPipe: the model assumes `Start` got past its check for a `GameModeManager` and so created the random stream. If the mode manager appears only after `Start` returned early (`PipeSpawnerScript.cs:31-35`), the draw at line 102 of the source raises `NullReferenceException` on a null `rng`; that case is not modelled.

## Findings

| source | as written | input that shows it | evidently intended | confidence | as-written member | corrected member |
|---|---|---|---|---|---|---|
| Assets/Scripts/FirebaseRestFirestore.cs:318-352 | `docIndex = docEnd + 1`, where `docEnd` closes the nearest `{` before `"name"`. That brace may close before the name it was found for. | The response `{"a":{},"name":1}`: the brace at 5 closes at 6, so `docIndex` becomes 7, and from 7 the same name, brace and index are found again. The loop never ends. | `docIndex` moves past the name found (`nameIndex + 1` when `docEnd < nameIndex`), so the splitter always ends. | not executed | FirestoreClient.AsWrittenStallsOnExample | FirestoreClient.NextDocIndexProgress |
| Assets/Scripts/LeaderboardManager.cs:188-192 | `RefreshLeaderboard` resets only `lastLoadTime`, yet the daily cache is timed by `lastDailyLoadTime`. | A daily refresh 10 s after a daily load, with a 60 s lifetime, shows the old cached daily list instead of reloading. | Both timestamps are reset, so a refresh forces a reload in both modes. | not executed | Leaderboard.LeaderboardManager.RefreshLeaderboardAsWritten | Leaderboard.LeaderboardManager.RefreshLeaderboard |
