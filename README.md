# A verified model of the discord-music-bot core

This project models the core of a Discord music bot in Dafny and proves properties of that model. The bot plays a guild's queue around the clock:

- Songs users ask for are **manual requests**. They wait ahead of the **automatic** trending songs.
- The trending songs come from a chain of sources. A built-in list of 50 songs is the last resort.
- Every song is looked up on YouTube before it plays.
- A progress tracker measures play time and leaves pauses out.

The model covers these parts of the bot:

- `queue.dfy`: the play queue (`MusicQueue`).
- `trending.dfy`: the trending fetcher (`TrendingFetcher`).
- `player.dfy`: the control part of the player (`MusicPlayer`).
- `progress.dfy`: the progress tracker (`ProgressTracker`).
- `helpers.dfy`: the formatting and list helpers.

Two files support them:

- `songs.dfy` holds the song record.
- `store.dfy` holds the guild settings table that the queue and the player read and write.

Components that the source updates in place are classes: the queue, the fetcher, the tracker, the player and the settings store. Their methods are proved against pure specification functions, such as `Queue.Next`, `Queue.ShuffleQueue`, `Trending.SelectSongs`, `Trending.Board` and `Helpers.Shuffled`. The properties the bot relies on are proved about those functions as lemmas.

The outside world appears as parameters:

- The wall clock (`Date.now`) is `now`.
- `Math.random` is an oracle `pick: nat -> nat`. The Fisher–Yates step for index `i` uses `pick(i) % (i + 1)`.
- The database query "played in this guild in the last two hours" is a set `recent` of YouTube ids.
- The single-song YouTube search is a function `resolve: string -> Option<YouTubeHit>`. `None` means the search failed or found nothing.
- Each trending source's answer is a `SourceOutcome`: it threw, or it returned a list.
- Tokboard's page is the list of (title, artist) rows the scraper found.
- The fallback searches are the lines yt-dlp printed.

Values the source leaves `undefined` are `""` or `0`, which JavaScript treats the same way.

## Model

| member | source | states |
|---|---|---|
| Helpers.FormatDurationSecondsRoundTrip | src/utils/helpers.js:13-24 | Reading the "M:SS" / "H:MM:SS" text of formatDurationSeconds back as hours, minutes and seconds gives the input seconds; 0 prints as "0:00" |
| Helpers.FormatDurationAgrees | src/utils/helpers.js:1-11 | formatDuration(ms) prints exactly what formatDurationSeconds prints for the whole seconds of ms |
| Helpers.FormatDurationRoundTrip | src/utils/helpers.js:1-11 | Reading a formatDuration text back gives floor(ms / 1000) |
| Helpers.Pad2Reads | src/utils/helpers.js:21 | `padStart(2, '0')` gives a digit string that reads back as the number, two characters long below 100 |
| Helpers.ParseNatToString | src/utils/helpers.js:21 | The decimal text of a number reads back as that number |
| Helpers.ProgressBarLayout | src/utils/helpers.js:26-31 | With no total the bar is `length` bars; otherwise it has exactly one knob, at floor(current/total·length) capped at length, every other glyph is '▬', and it is `length` glyphs long while unfinished and `length + 1` once full |
| Helpers.KnobMonotone | src/utils/helpers.js:28 | The knob never moves backwards as `current` grows |
| Helpers.ShuffleArray | src/utils/helpers.js:33-40 | The in-place Fisher–Yates loop over a copy yields `Shuffled(items, pick)`, a permutation of the input of the same length |
| Helpers.ShuffledPermutes | src/utils/helpers.js:33-40 | Whatever the random draws, the shuffle has the input's length and multiset |
| Helpers.ShuffledMembers | src/utils/helpers.js:33-40 | Every element of the shuffle is an element of the input |
| Helpers.Truncate | src/utils/helpers.js:42-45 | Empty stays empty; text within the limit is unchanged; longer text becomes its first maxLength − 3 characters plus "...", exactly maxLength long when maxLength ≥ 3, and longer than the limit below 3 |
| Helpers.TruncateFits | src/utils/helpers.js:42-45 | For a limit of at least 3 the result never exceeds it and is the input or a prefix of it followed by "..." |
| Helpers.RankEmoji | src/utils/helpers.js:47-50 | The label is a medal exactly for ranks 1, 2 and 3: gold for 1, silver for 2, bronze for 3; every other rank, zero and negatives included, is `**#n**` with n printed in decimal |
| Helpers.RankLabelReadsBack | src/utils/helpers.js:47-50 | Past the podium the label is `**#`, digits that read back as the rank, and `**` |
| Helpers.RankEmojiInjective | src/utils/helpers.js:47-50 | Different ranks never get the same label |
| Helpers.FirstGenreKey | src/utils/helpers.js:72-74 | The index found is the first table key, in entry order, that the lower-cased genre contains, or the table's end when none does |
| Helpers.GetGenreColor | src/utils/helpers.js:52-76 | No genre or no matching key gives the default colour; otherwise the colour of the first key in table order that occurs in the lower-cased genre |
| Helpers.PopComesFirst | src/utils/helpers.js:53-54 | A genre that mentions "pop" is always pop-coloured, whatever else it names |
| Helpers.ChunkArray | src/utils/helpers.js:78-84 | The chunks concatenate back to the input, none is empty, all but the last hold exactly `size`, and there are ceil(n / size) of them |
| Progress.ElapsedFrozenWhilePaused | src/utils/progress.js:31-38 | While a pause is open, getElapsed reads the same at every time |
| Progress.ElapsedMonotoneWhilePlaying | src/utils/progress.js:31-38 | While not paused, getElapsed never decreases as time passes |
| Progress.PauseGapExcluded | src/utils/progress.js:24-38 | After a pause from p to r, the reading equals that of a track started r − p later that never paused |
| Progress.ResumeIsContinuous | src/utils/progress.js:24-38 | Resuming does not change the reading at the moment of resuming |
| Progress.TimeTextReadsBack | src/utils/progress.js:45-48 | The time string splits at '/' into two clock texts that read back as the elapsed seconds and the duration |
| Progress.ProgressTracker.constructor | src/utils/progress.js:4-9 | A new tracker has no start or pause time and reads 0 at every time |
| Progress.ProgressTracker.Start | src/utils/progress.js:11-16 | A fresh, unpaused clock for the given duration that reads 0 at the start time |
| Progress.ProgressTracker.Pause | src/utils/progress.js:18-22 | Records the pause time unless a pause is already open; from then on the reading is frozen at its value when pausing |
| Progress.ProgressTracker.Resume | src/utils/progress.js:24-29 | Adds the pause length to the paused total and closes the pause (nothing without a pause); the reading does not jump |
| Progress.ProgressTracker.IsFinished | src/utils/progress.js:50-52 | For a track with a length, finished exactly when a progress bar of any length shows its knob at the very end |
| Progress.FinishedStaysFinished | src/utils/progress.js:31-52 | A finished track stays finished: at every later time while playing, and at every time while paused |
| Progress.FinishedIffBarFull | src/utils/progress.js:50-52 | For a positive duration, the elapsed time has reached it exactly when the knob of every progress bar sits at its end |
| Songs.WithHit | src/trending.js:69-72 | Copying a search answer into a song gives it a source and keeps its title, artist, genre, rank, source label and request flag |
| Store.SettingsStore.GetSettings | src/database.js:197-212 | Returns the guild's row, first inserting the column defaults (volume 50, shuffle_mode 1, eq_mode 'normal') when there is none |
| Store.SettingsStore.UpdateSetting | src/database.js:214-223 | Ensures the row exists and changes exactly the one column of that guild |
| Queue.Stamp | src/queue.js:26-31 | The stored record is the input with only addedAt = now, isManualRequest = priority and a new id changed |
| Queue.LeadingManual | src/queue.js:35-42 | The insert index is the length of the leading run of manual requests |
| Queue.LeadingManualGrows | src/queue.js:33-43 | A priority add lengthens that run by one, with the new record at its end and the rest of the queue behind it unchanged |
| Queue.PriorityAddsKeepCallOrder | src/queue.js:33-43 | Successive priority adds sit together, in call order, after the manual requests already waiting and before everything else |
| Queue.MapSeqPermutes | src/queue.js:51-56 | Stamping two orderings of the same songs gives two orderings of the same records |
| Queue.FirstPlayable | src/queue.js:60-67 | getNext stops at the first song it does not pass over; every song before it is passed over |
| Queue.NextNeverPlaysSkippable | src/queue.js:58-80 | A song getNext hands out is never an automatic song the guild heard lately; it becomes the current song, and exactly the passed-over songs ahead of it leave the queue |
| Queue.NextNullCase | src/queue.js:58-80 | getNext returns null exactly when every waiting song is passed over; the queue is then empty and the current song and history are unchanged |
| Queue.HistoryStaysBounded | src/queue.js:69-73 | Neither getNext nor getPrevious lets the history hold more than 50 songs |
| Queue.PreviousUndoesNext | src/queue.js:82-91 | Stepping back after stepping forward, with room in the history, restores the queue, current song and history exactly |
| Queue.ManualOf | src/queue.js:125 | The manual part holds only manual requests |
| Queue.AutoOf | src/queue.js:126 | The automatic part holds only automatic songs |
| Queue.PartsCoverQueue | src/queue.js:125-126 | The two filters together hold every song of the queue exactly as often as it occurs |
| Queue.ShuffleQueueLayout | src/queue.js:124-128 | Shuffling keeps every song, puts all manual requests first in their order and leaves only automatic songs behind them |
| Queue.SumDurationsAppend | src/queue.js:109-111 | The total duration of two queues one after the other is the sum of their totals |
| Queue.SumDurationsInsert | src/queue.js:109-111 | Inserting a song anywhere adds exactly its duration to the total |
| Queue.MusicQueue.constructor | src/queue.js:5-17 | A new queue is empty, nothing plays, the history is empty and shuffle mode is the configured default |
| Queue.MusicQueue.SetGuildId | src/queue.js:19-23 | Binds the guild and sets shuffle mode from its stored shuffle_mode being 1, creating its settings row if needed |
| Queue.MusicQueue.AddSong | src/queue.js:25-49 | Returns the stamped record; a priority song goes right after the leading manual run, any other at the end; nothing else changes |
| Queue.MusicQueue.AddSongs | src/queue.js:51-56 | Appends the songs, shuffled or not, all as automatic songs; the appended part is a permutation of the stamped input |
| Queue.MusicQueue.GetNext | src/queue.js:58-80 | The returned song and the new queue, current song and history are those of the specification Next |
| Queue.MusicQueue.GetPrevious | src/queue.js:82-91 | The returned song and the new state are those of Previous: the newest history entry plays again and the playing song goes back to the front |
| Queue.MusicQueue.Peek | src/queue.js:147-149 | Returns a prefix of the queue, `count` songs long or the whole queue when it is shorter |
| Queue.MusicQueue.RemoveSong | src/queue.js:113-118 | A valid index removes and returns exactly that song; any other index returns null and changes nothing |
| Queue.MusicQueue.ClearQueue | src/queue.js:120-122 | Drops the waiting songs and keeps the current song and the history |
| Queue.MusicQueue.Shuffle | src/queue.js:124-128 | The queue becomes ShuffleQueue of the old queue: manual requests, then the automatic songs shuffled |
| Queue.MusicQueue.ToggleShuffle | src/queue.js:130-137 | Flips the mode and returns it; shuffles only when turning on; stores 1 or 0 for a known guild and nothing otherwise |
| Queue.MusicQueue.FillCurrent | src/player.js:205-211 | The search answer filled into the song getNext returned also shows in the queue's current song, which is the same object |
| Trending.FirstSuccess | src/trending.js:31-54 | The first configured source that returned a non-empty list; every source before it threw or returned nothing |
| Trending.SelectSongsChoice | src/trending.js:26-59 | The chosen list is never empty: it is the built-in list exactly when no source gave songs, and otherwise the answer of the first source that did |
| Trending.EnrichAllFacts | src/trending.js:61-85 | The enriched list keeps the songs in order with ranks 1, 2, …; a song with both URL and id keeps them; a song the search answered has a source |
| Trending.HardcodedFacts | src/trending.js:209-262 | The built-in list has 50 songs ranked 1 to 50, all from 'hardcoded', none playable before a search and none a manual request |
| Trending.ClipStaysClean | src/trending.js:114-116 | Cutting an accepted title to 200 characters keeps it longer than one character and free of the header text |
| Trending.BoardShape | src/trending.js:109-123 | Tokboard songs are ranked by position, from 'tokboard', 'pop', with titles of 2 to 200 characters that are not the header, and an artist (at worst 'Unknown') |
| Trending.BoardComplete | src/trending.js:109-123 | Every row the filter accepts yields a song with its cut title |
| Trending.AcceptedRows | src/trending.js:114 | The positions, in increasing order, of exactly the rows whose title is longer than one character and does not contain 'song name' |
| Trending.BoardFollowsRows | src/trending.js:109-123 | The k-th Tokboard song is made from the k-th accepted row with rank k + 1, so row order is kept and no accepted row is dropped |
| Trending.TokboardSongFields | src/trending.js:115-121 | A row's song has the title cut to 200 characters, the artist cut to 200 characters or 'Unknown' when that is empty, and the labels 'tokboard' and 'pop' |
| Trending.CollectFacts | src/trending.js:170-200 | The fallback songs have distinct non-empty titles, ranks by position, a watch URL of their id and an artist, and every titled record's title is among them |
| Trending.FirstRecords | src/trending.js:182 | The positions, in increasing order, of exactly the lines that are a titled record whose title no earlier record carries |
| Trending.CollectKeepsFirstRecords | src/trending.js:178-194 | The k-th fallback song is built from the k-th first record of its title, with rank k + 1; a later record with a title already seen never replaces it |
| Trending.LastLineKept | src/trending.js:182 | The `songs.find` test passes a line exactly when it is the first titled record of its title |
| Trending.CollectTitlesFromLines | src/trending.js:182-193 | Every collected title is the title of some record |
| Trending.TrendingFetcher.constructor | src/trending.js:7-14 | A new fetcher has an empty cache and no fetch time |
| Trending.TrendingFetcher.FetchAll | src/trending.js:26-94 | Returns EnrichAll of SelectSongs, which is never empty, so the cache is always replaced by it and the fetch time set; getCachedSongs then returns it whatever the database holds |
| Trending.TrendingFetcher.FetchFromTokboard | src/trending.js:96-126 | Returns the first maxSongs songs of Board(rows): the k-th song is made from the k-th accepted row; ranks by position, titles of 2 to 200 characters without the header, an artist for each |
| Trending.TrendingFetcher.FetchFallbackTrending | src/trending.js:161-207 | Returns the first maxSongs songs of Collect(lines): the k-th song is made from the k-th first record of a title; distinct titles, ranks by position, every song with a source |
| Player.EqFiltersFacts | src/player.js:353-374 | Exactly the three non-normal valid modes have filters, three each; 'normal' and unknown modes have none |
| Player.BassBoostHasNoComma | src/player.js:356-360 | No bassboost filter contains the ',' that joins filters |
| Player.VocalHasNoComma | src/player.js:361-365 | No vocal filter contains ',' |
| Player.NightcoreHasNoComma | src/player.js:366-370 | No nightcore filter contains ',' |
| Player.FfmpegArgsLayout | src/player.js:292-302 | The ffmpeg arguments always ask for '-ar 48000 -ac 2' and end on 'pipe:1'; they carry '-af' exactly when there are filters, and the filter argument splits back into the filters |
| Player.EqFilterArgReadsBack | src/player.js:292-302 | For every mode the joined '-af' argument splits back into exactly that mode's preset |
| Player.ClampVolumeFacts | src/player.js:439-448 | The volume set is never negative, never above a non-negative maximum, keeps an in-range value, and clamping twice changes nothing |
| Player.RetryCycle | src/player.js:500-512 | Consecutive errors count 1, 2, …, maxRetries and start over: after n errors the counter is n mod (maxRetries + 1), never above maxRetries |
| Player.Playable | src/player.js:185 | The filter keeps only songs of the input that have a URL or an id |
| Player.PlayableKeeps | src/player.js:185 | The filter drops no song that has a source |
| Player.StampedPlaylistPlayable | src/player.js:185-186 | The playlist handed to addSongs, shuffled or not, is queued as automatic songs that all have a source |
| Player.LookUpAt | src/player.js:172-182 | Each built-in song is unchanged, or among the first 20 and filled in from its search answer |
| Player.LookUpFirstPlayable | src/player.js:170-185 | From a ranked list with no sources, only the first 20 songs can pass the filter, and each one the search answered does |
| Player.PlaylistFromBuiltIn | src/player.js:167-189 | Without a cache, the playlist has only songs ranked 1 to 20 with a source, including every one of them the search answered |
| Player.MusicPlayer.constructor | src/player.js:18-47 | A new player is idle and unpaused with the configured volume and equalizer, retry count 0 and a fresh progress tracker reading 0 |
| Player.MusicPlayer.Initialize | src/player.js:49-60 | Binds the guild in player and queue, creates its settings row if needed, takes the volume (50 when unset), the mode ('normal' when unset) and shuffle mode from it, and has an audio player |
| Player.MusicPlayer.StartSong | src/player.js:247-251 | A started song is the one playing and restarts an unpaused progress clock with its duration |
| Player.MusicPlayer.Pause | src/player.js:395-403 | Succeeds exactly with an audio player that is playing; then paused, with the progress reading frozen; otherwise nothing changes |
| Player.MusicPlayer.Resume | src/player.js:405-413 | Succeeds exactly with an audio player that is paused; then unpaused, with no jump in the progress reading; otherwise nothing changes |
| Player.MusicPlayer.TogglePause | src/player.js:415-421 | Reports 'resumed' for a paused player and 'paused' otherwise; a successful pause freezes the progress reading and a successful resume continues it without a jump, with nothing else changed; a failed step changes nothing |
| Player.MusicPlayer.SetVolume | src/player.js:439-452 | Sets and returns the volume clamped to 0..maxVolume, stored for a known guild only |
| Player.MusicPlayer.SetEq | src/player.js:454-470 | Accepts exactly the four valid modes (a refused mode changes nothing); stores the mode for a known guild and restarts the current song while playing |
| Player.MusicPlayer.LoadTrendingPlaylist | src/player.js:167-189 | Appends PlaylistSongs of the cache (or of the built-in list after searching its first 20), shuffled exactly in shuffle mode, as automatic songs that all have a source |
| Player.PlayNextStartsPlayable | src/player.js:191-220 | A song playNext starts has a source and is the queue's current song; when nothing starts the queue is empty |
| Player.PlayNextTakesNext | src/player.js:192-219 | When getNext hands out a song, playNext does not reload: a song with a source starts as it is, one without starts with its search answer, and only a failed search moves on to the next song |
| Player.PlayNextReloadsOnce | src/player.js:192-203 | When getNext gives nothing, playNext reloads once and starts the first reloaded song getNext does not pass over; it gives up exactly when every reloaded song is passed over |
| Player.MusicPlayer.PlayTaken | src/player.js:205-219 | The song handed out starts as it is when it has a source; otherwise it starts with the search answer filled into the queue's current song, or nothing changes when the search fails |
| Player.MusicPlayer.PlayFirst | src/player.js:192-219 | On a queue whose songs all have a source, the song getNext hands out starts unchanged, and nothing starts exactly when getNext gives nothing |
| Player.MusicPlayer.PlayReloaded | src/player.js:194-203 | On an emptied queue the trending playlist is appended and the song getNext then hands out starts; nothing changes in the player when none is left |
| Player.MusicPlayer.PlayOrSkip | src/player.js:205-219 | After getNext handed out a song, the outcome and the queue are those of PlayNextSpec from the queue before getNext |
| Player.MusicPlayer.PlayNext | src/player.js:191-220 | The started song (or none) and the queue left behind are those of PlayNextSpec, so the lemmas above hold of it; nothing starting leaves the player unchanged, and a start restarts the progress clock |
| Player.MusicPlayer.OnPlaying | src/player.js:76-80 | The Playing event sets playing, clears the pause and resets the retry counter to 0, the start of RetriesAfter; nothing else changes |
| Player.MusicPlayer.OnPaused | src/player.js:82-84 | The Paused event sets the pause flag and nothing else |
| Player.MusicPlayer.OnIdle | src/player.js:70-74 | The Idle event stops playing, then starts the song PlayNextSpec picks from the queue as it was (which has a source) and changes nothing else in the player |
| Player.MusicPlayer.HandleError | src/player.js:500-512 | Below the maximum it counts one more retry and waits retryDelay, otherwise resets to 0 and waits 30 s; the counter never passes maxRetries; then the song PlayNextSpec picks starts |
| Player.MusicPlayer.OnError | src/player.js:86-90 | The error event stops playing and runs the error handler: the retry counter's rule, its delay and the song PlayNextSpec picks |
| Player.MusicPlayer.Stop | src/player.js:476-485 | Not playing, not paused, the waiting songs dropped; current song and history kept |

## Left out

- **I/O and asynchrony.** The Discord gateway, voice connections, embeds, logging and `async` scheduling are not modelled. The audio player, the yt-dlp and ffmpeg processes, and every `setTimeout`/`setInterval` are not modelled either. A timer appears only as the delay `HandleError` returns.
- **playSong.** Only the path after a usable stream is modelled (`StartSong`: the song plays and the progress clock restarts). Not modelled: the retry through playNext when the stream cannot be created, the handleError call from its catch, the history and stats database writes, and the now-playing notification.
- **The recently-played set.** `recent` is whatever the database holds. The play-history write that feeds it is outside the model.
- **Player commands not modelled:** preloadNextSong, skip, previous, disconnect, autoJoinAndPlay, joinChannel, and the now-playing message updates. All are Discord or timer driven. `getEQ` and the queue getters (getCurrentSong, getQueue, getHistory, getQueueLength, isShuffled) are plain field reads.
- **Tokchart.** fetchFromTokchart is not modelled; it appears only as a `SourceOutcome`.
- **Network and scraping.** The HTTP request, the HTML parse and `trim()` are not modelled; Tokboard's input is the rows the scraper found. saveTrendingSongs and the start/stop interval of the fetcher are left out. getLatestTrendingSongs is the parameter `latest`.
- **Search failures.** A throwing single-song search is the resolver's `None`. A fallback search that fails contributes no lines. A JSON line that does not parse is `Malformed`.
- **The fallback's outer error path.** The catch that returns `[]` cannot be reached once the searches are given as lines.
- Trending.SearchSong: a record without an `id` gets the URL of an empty id. The source prints `watch?v=undefined`. Either way the song counts as having a source.
- Queue.Stamp: the id is the YouTube id, '_', and `now`. The source reads `Date.now()` twice. `AddSongs` and `LoadTrendingPlaylist` use one clock reading for a whole batch.
- Player.MusicPlayer.SetVolume: the volume is kept in whole percent rather than as the float `percent / 100`, so the `Math.round` of the source is the identity here.
- **Progress ratio.** `current / total * length` is computed as floor(current · length / total) on naturals, not in floating point. Durations and times are whole numbers.
- Helpers.ToLower: it lower-cases ASCII letters only. Unicode case mapping is not modelled.
- Helpers.Truncate: lengths and cuts count Unicode code points. JavaScript counts UTF-16 code units, so a string of astral characters (emoji) is longer in the source, and the source may cut a surrogate pair in half.
- Trending.Clip: the 200-character cut counts code points, not UTF-16 code units, so it never splits a surrogate pair as `substring(0, 200)` can.
- Trending.TokboardAccepts: the "longer than one character" test counts code points; a single emoji title is one character here but two UTF-16 units in the source, which accepts it.
- Trending.TrendingFetcher.GetCachedSongs: a plain conditional with no contract of its own; what it returns after a fetch is stated by FetchAll, and LoadTrendingPlaylist and PlayNext read it.
- Helpers.ChunkArray: it requires `size > 0`. With size 0 the source's loop never ends.
- Player.EqFilters: a mode naming an `Object.prototype` member (for example "constructor") would make the source's preset lookup return that member. The model returns no filters, the same as for any unknown mode; setEQ refuses such modes anyway.
- **Guild settings.** The voice and text channel ids and the autoplay column are not modelled. The settings store keeps only volume, shuffle_mode and eq_mode.
- **Aliasing.** The song objects that fetchAll, loadTrendingPlaylist and playNext mutate in place are values here. The one write other code observes, through the queue's current song in playNext, is modelled by `FillCurrent`.
- **playNext's recursion.** The source's recursion after a failed search ends because the queue gets shorter. The reload happens only when the queue was empty, and the reloaded songs all have a source. The model proves both facts.
- **stop and the Idle event.** The Idle event that `audioPlayer.stop(true)` triggers afterwards is a separate `OnIdle` call.
