/** The control part of src/player.js: pausing and resuming, the volume, the equalizer and
    the ffmpeg arguments it produces, the retry counter of the error handler, the player
    events, reloading the trending playlist and choosing the next song. Discord, the audio
    player, the spawned processes and the timers are not modelled: a started song is
    recorded in `nowPlaying` and restarts the progress tracker, and a timer shows up as the
    delay it would wait. */
module Player {
  import opened Optional
  import opened Songs
  import Helpers
  import Store
  import Queue
  import Progress
  import Trending

  // ---------------------------------------------------------------------------
  // Equalizer presets and the ffmpeg command line
  // ---------------------------------------------------------------------------

  /** The modes setEQ accepts. */
  const ValidModes: seq<string> := ["normal", "bassboost", "vocal", "nightcore"]

  const BassBoostFilters: seq<string> :=
    ["bass=g=10:f=110:w=0.6",
     "equalizer=f=40:width_type=h:width=50:g=6",
     "equalizer=f=80:width_type=h:width=50:g=4"]

  const VocalFilters: seq<string> :=
    ["equalizer=f=300:width_type=h:width=100:g=4",
     "equalizer=f=1000:width_type=h:width=200:g=3",
     "equalizer=f=3000:width_type=h:width=200:g=2"]

  const NightcoreFilters: seq<string> :=
    ["asetrate=48000*1.25",
     "atempo=0.8",
     "equalizer=f=5000:width_type=h:width=200:g=3"]

  /** getEQFilters for a mode: the preset's filters, none for 'normal' or an unknown mode. */
  function EqFilters(mode: string): seq<string>
  {
    if mode == "bassboost" then BassBoostFilters
    else if mode == "vocal" then VocalFilters
    else if mode == "nightcore" then NightcoreFilters
    else []
  }

  /** Exactly the three non-normal valid modes have filters, three each. */
  lemma EqFiltersFacts(mode: string)
    ensures EqFilters(mode) != [] <==> mode in ValidModes && mode != "normal"
    ensures EqFilters(mode) != [] ==> |EqFilters(mode)| == 3
  {
    if mode == "bassboost" {
    } else if mode == "vocal" {
    } else if mode == "nightcore" {
    } else {
      assert ValidModes == ["normal"] + ["bassboost", "vocal", "nightcore"];
    }
  }

  predicate NoComma(filters: seq<string>)
  {
    forall k :: 0 <= k < |filters| ==> ',' !in filters[k]
  }

  lemma BassBoostHasNoComma()
    ensures NoComma(BassBoostFilters)
  {
    assert ',' !in BassBoostFilters[0];
    assert ',' !in BassBoostFilters[1];
    assert ',' !in BassBoostFilters[2];
  }

  lemma VocalHasNoComma()
    ensures NoComma(VocalFilters)
  {
    assert ',' !in VocalFilters[0];
    assert ',' !in VocalFilters[1];
    assert ',' !in VocalFilters[2];
  }

  lemma NightcoreHasNoComma()
    ensures NoComma(NightcoreFilters)
  {
    assert ',' !in NightcoreFilters[0];
    assert ',' !in NightcoreFilters[1];
    assert ',' !in NightcoreFilters[2];
  }

  /** The ffmpeg arguments of createStream: read from stdin, Opus at 48 kHz in two channels,
      the filters joined by ',' after '-af' when there are any, write to stdout. */
  function FfmpegArgs(filters: seq<string>): seq<string>
  {
    ["-i", "pipe:0", "-analyzeduration", "0", "-loglevel", "0", "-acodec", "libopus",
     "-f", "opus", "-ar", "48000", "-ac", "2"]
    + (if |filters| > 0 then ["-af", Helpers.Join(filters, ',')] else [])
    + ["pipe:1"]
  }

  /** The command line always asks for 48000 Hz stereo and ends on stdout; it carries '-af'
      exactly when there are filters, and the filter argument splits back into the filters. */
  lemma FfmpegArgsLayout(filters: seq<string>)
    ensures var args := FfmpegArgs(filters);
            && args[10..14] == ["-ar", "48000", "-ac", "2"]
            && args[|args| - 1] == "pipe:1"
            && ("-af" in args <==> |filters| > 0)
            && (|filters| > 0 ==> |args| == 17 && args[14] == "-af")
            && (|filters| > 0 && NoComma(filters) ==>
                  Helpers.Split(args[15], ',') == filters)
  {
    if |filters| > 0 && NoComma(filters) {
      Helpers.SplitJoin(filters, ',');
    }
  }

  /** No filter text holds the ',' that separates the filters on the command line, so the
      joined filter argument splits back into the preset. */
  lemma EqFilterArgReadsBack(mode: string)
    ensures NoComma(EqFilters(mode))
    ensures var args := FfmpegArgs(EqFilters(mode));
            EqFilters(mode) != [] ==> args[14] == "-af" && Helpers.Split(args[15], ',') == EqFilters(mode)
  {
    BassBoostHasNoComma();
    VocalHasNoComma();
    NightcoreHasNoComma();
    FfmpegArgsLayout(EqFilters(mode));
  }

  // ---------------------------------------------------------------------------
  // Volume and retries
  // ---------------------------------------------------------------------------

  /** setVolume's clamp, in whole percent. */
  function ClampVolume(percent: int, maxVolume: int): int
  {
    if percent > maxVolume then (if maxVolume < 0 then 0 else maxVolume)
    else if percent < 0 then 0 else percent
  }

  /** The clamped volume is never negative, never above a non-negative maximum, keeps any
      volume already in range, and clamping twice changes nothing. */
  lemma ClampVolumeFacts(percent: int, maxVolume: int)
    ensures 0 <= ClampVolume(percent, maxVolume)
    ensures 0 <= maxVolume ==> ClampVolume(percent, maxVolume) <= maxVolume
    ensures 0 <= percent <= maxVolume ==> ClampVolume(percent, maxVolume) == percent
    ensures ClampVolume(ClampVolume(percent, maxVolume), maxVolume) == ClampVolume(percent, maxVolume)
  {
  }

  /** handleError's counter: one more retry while below the maximum, else back to 0. */
  function RetryAfter(count: nat, maxRetries: nat): nat
  {
    if count < maxRetries then count + 1 else 0
  }

  /** The counter after n errors in a row, starting from 0 (a Playing event resets it). */
  function RetriesAfter(n: nat, maxRetries: nat): nat
  {
    if n == 0 then 0 else RetryAfter(RetriesAfter(n - 1, maxRetries), maxRetries)
  }

  /** Consecutive errors count 1, 2, ..., maxRetries and then start over: the counter never
      passes maxRetries and after n errors it is n mod (maxRetries + 1). */
  lemma {:induction false} RetryCycle(n: nat, maxRetries: nat)
    ensures RetriesAfter(n, maxRetries) == n % (maxRetries + 1)
    ensures RetriesAfter(n, maxRetries) <= maxRetries
  {
    if n > 0 {
      RetryCycle(n - 1, maxRetries);
      var d := maxRetries + 1;
      var q, r := (n - 1) / d, (n - 1) % d;
      if r < maxRetries {
        Helpers.DivisionUnique(n, d, q, r + 1);
      } else {
        Helpers.DivisionUnique(n, d, q + 1, 0);
      }
    }
  }

  // ---------------------------------------------------------------------------
  // The trending playlist
  // ---------------------------------------------------------------------------

  /** loadTrendingPlaylist searches for at most this many built-in songs. */
  const LookupLimit: nat := 20

  /** The built-in list after searching for its first LookupLimit songs. */
  function LookUpFirst(songs: seq<Song>, resolve: Resolver): seq<Song>
  {
    seq(|songs|, i requires 0 <= i < |songs| =>
      if i < LookupLimit then
        match resolve(Query(songs[i]))
        case Some(hit) => WithHit(songs[i], hit)
        case None => songs[i]
      else songs[i])
  }

  /** `songs.filter(s => s.youtube_url || s.youtube_id)`. */
  function Playable(songs: seq<Song>): (r: seq<Song>)
    ensures forall s :: s in r ==> s in songs && HasSource(s)
  {
    if songs == [] then []
    else (if HasSource(songs[0]) then [songs[0]] else []) + Playable(songs[1..])
  }

  /** Playable drops only songs without a source. */
  lemma {:induction false} PlayableKeeps(songs: seq<Song>)
    ensures forall s :: s in songs && HasSource(s) ==> s in Playable(songs)
  {
    if songs != [] {
      PlayableKeeps(songs[1..]);
      assert forall s :: s in songs ==> s == songs[0] || s in songs[1..];
    }
  }

  /** Stamping a playlist, shuffled or not, as automatic songs keeps every source. */
  lemma StampedPlaylistPlayable(songs: seq<Song>, shuffle: bool, pick: Helpers.Random, now: nat)
    requires forall s :: s in songs ==> HasSource(s)
    ensures var r := Queue.StampAll(if shuffle then Helpers.Shuffled(songs, pick) else songs, false, now);
            forall i :: 0 <= i < |r| ==> HasSource(r[i]) && !r[i].isManualRequest
  {
    var toAdd := if shuffle then Helpers.Shuffled(songs, pick) else songs;
    forall i | 0 <= i < |toAdd| ensures HasSource(toAdd[i]) {
      assert toAdd[i] in toAdd;
      if shuffle {
        Helpers.ShuffledMembers(songs, pick, toAdd[i]);
      }
    }
  }

  /** What loadTrendingPlaylist hands to addSongs: the cached list, or when there is none
      the built-in list with its first songs looked up; either way only songs with a source. */
  function PlaylistSongs(cached: seq<Song>, resolve: Resolver): seq<Song>
  {
    Playable(if |cached| > 0 then cached else LookUpFirst(Trending.HardcodedTrending(), resolve))
  }

  /** Looking up the first songs of a ranked list none of which has a source: only those
      first songs can pass the filter, and each of them the search answered does. */
  lemma LookUpFirstPlayable(h: seq<Song>, resolve: Resolver)
    requires forall i :: 0 <= i < |h| ==> !HasSource(h[i]) && h[i].rank == i + 1
    ensures forall s :: s in Playable(LookUpFirst(h, resolve)) ==> HasSource(s) && 1 <= s.rank <= LookupLimit
    ensures forall i :: 0 <= i < |h| && i < LookupLimit && resolve(Query(h[i])).Some? ==>
              WithHit(h[i], resolve(Query(h[i])).value) in Playable(LookUpFirst(h, resolve))
  {
    var l := LookUpFirst(h, resolve);
    forall s | s in Playable(l) ensures HasSource(s) && 1 <= s.rank <= LookupLimit {
      var i :| 0 <= i < |l| && l[i] == s;
      LookUpAt(h, resolve, i);
    }
    PlayableKeeps(l);
    forall i | 0 <= i < |h| && i < LookupLimit && resolve(Query(h[i])).Some?
      ensures WithHit(h[i], resolve(Query(h[i])).value) in Playable(l)
    {
      assert l[i] == WithHit(h[i], resolve(Query(h[i])).value);
    }
  }

  lemma LookUpAt(h: seq<Song>, resolve: Resolver, i: nat)
    requires i < |h|
    ensures LookUpFirst(h, resolve)[i] == h[i]
            || (i < LookupLimit && resolve(Query(h[i])).Some?
                && LookUpFirst(h, resolve)[i] == WithHit(h[i], resolve(Query(h[i])).value))
  {
  }

  /** Without a cache only the first LookupLimit built-in songs can make it into the
      playlist, and each of those the search answered does. */
  lemma PlaylistFromBuiltIn(resolve: Resolver)
    ensures forall s :: s in PlaylistSongs([], resolve) ==> HasSource(s) && 1 <= s.rank <= LookupLimit
    ensures forall i :: 0 <= i < LookupLimit && resolve(Query(Trending.HardcodedTrending()[i])).Some? ==>
              WithHit(Trending.HardcodedTrending()[i], resolve(Query(Trending.HardcodedTrending()[i])).value)
                in PlaylistSongs([], resolve)
  {
    Trending.HardcodedFacts();
    LookUpFirstPlayable(Trending.HardcodedTrending(), resolve);
  }

  /** The records loadTrendingPlaylist appends to the queue: the playlist stamped as
      automatic songs, shuffled first when the queue is in shuffle mode. */
  function Reloaded(cached: seq<Song>, shuffle: bool, resolve: Resolver, pick: Helpers.Random, now: nat): (r: seq<Song>)
    ensures forall s :: s in r ==> HasSource(s) && !s.isManualRequest
  {
    var p := PlaylistSongs(cached, resolve);
    StampedPlaylistPlayable(p, shuffle, pick, now);
    Queue.StampAll(if shuffle then Helpers.Shuffled(p, pick) else p, false, now)
  }

  // ---------------------------------------------------------------------------
  // playNext
  // ---------------------------------------------------------------------------

  /** What playNext achieved: a song started, or nothing to play even after reloading. */
  datatype PlayOutcome = Started(song: Song) | NoSongs

  /** The outcome of playNext and the queue it leaves behind. */
  datatype PlayStep = PlayStep(outcome: PlayOutcome, after: Queue.Snapshot)

  /** playNext over the queue's snapshot. getNext is asked; only when it gives nothing is the
      playlist `reload` appended (to the then empty queue) and getNext asked once more. A
      song with a source starts; one without is searched for and starts with the answer
      filled in, or is dropped and playNext begins again. A reloaded song always has a
      source, so the search never happens after a reload. */
  function PlayNextSpec(st: Queue.Snapshot, guildId: Option<string>, recent: set<string>,
                        reload: seq<Song>, resolve: Resolver): PlayStep
    requires forall s :: s in reload ==> HasSource(s)
    decreases |st.queue|
  {
    var first := Queue.Next(st, guildId, recent);
    if first.song.Some? then
      var s := first.song.value;
      if HasSource(s) then PlayStep(Started(s), first.after)
      else match resolve(Query(s))
        case Some(hit) => PlayStep(Started(WithHit(s, hit)), first.after.(current := Some(WithHit(s, hit))))
        case None => PlayNextSpec(first.after, guildId, recent, reload, resolve)
    else
      var second := Queue.Next(Queue.Snapshot(reload, st.current, st.history), guildId, recent);
      if second.song.None? then PlayStep(NoSongs, second.after)
      else
        var s := second.song.value;
        Queue.NextNeverPlaysSkippable(Queue.Snapshot(reload, st.current, st.history), guildId, recent);
        if HasSource(s) then PlayStep(Started(s), second.after)
        else assert false; PlayStep(NoSongs, second.after)
  }

  /** A song that starts has a source and is the queue's current song; nothing starts only
      when the queue is left empty. */
  lemma {:induction false} PlayNextStartsPlayable(st: Queue.Snapshot, guildId: Option<string>, recent: set<string>,
                                                  reload: seq<Song>, resolve: Resolver)
    requires forall s :: s in reload ==> HasSource(s)
    ensures var r := PlayNextSpec(st, guildId, recent, reload, resolve);
            && (r.outcome.Started? ==> HasSource(r.outcome.song) && r.after.current == Some(r.outcome.song))
            && (r.outcome.NoSongs? ==> r.after.queue == [])
    decreases |st.queue|
  {
    var first := Queue.Next(st, guildId, recent);
    if first.song.Some? && !HasSource(first.song.value) && resolve(Query(first.song.value)).None? {
      PlayNextStartsPlayable(first.after, guildId, recent, reload, resolve);
      Queue.NextNeverPlaysSkippable(st, guildId, recent);
    } else if first.song.None? {
      var st1 := Queue.Snapshot(reload, st.current, st.history);
      Queue.NextNeverPlaysSkippable(st1, guildId, recent);
      Queue.NextNullCase(st1, guildId, recent);
    }
  }

  /** When getNext hands out a song, playNext plays that song (or its search answer) and does
      not reload; it moves on only when the song has no source and the search finds nothing. */
  lemma PlayNextTakesNext(st: Queue.Snapshot, guildId: Option<string>, recent: set<string>,
                          reload: seq<Song>, resolve: Resolver)
    requires forall s :: s in reload ==> HasSource(s)
    requires Queue.Next(st, guildId, recent).song.Some?
    ensures var first := Queue.Next(st, guildId, recent);
            var s := first.song.value;
            var r := PlayNextSpec(st, guildId, recent, reload, resolve);
            && (HasSource(s) ==> r == PlayStep(Started(s), first.after))
            && (!HasSource(s) && resolve(Query(s)).Some? ==>
                  r.outcome == Started(WithHit(s, resolve(Query(s)).value))
                  && r.after == first.after.(current := Some(r.outcome.song)))
            && (!HasSource(s) && resolve(Query(s)).None? ==>
                  r == PlayNextSpec(first.after, guildId, recent, reload, resolve))
  {
  }

  /** When getNext gives nothing, playNext reloads once: it plays the first reloaded song
      getNext does not pass over, and reports no songs exactly when it passes over all of
      them. */
  lemma PlayNextReloadsOnce(st: Queue.Snapshot, guildId: Option<string>, recent: set<string>,
                            reload: seq<Song>, resolve: Resolver)
    requires forall s :: s in reload ==> HasSource(s)
    requires Queue.Next(st, guildId, recent).song.None?
    ensures var r := PlayNextSpec(st, guildId, recent, reload, resolve);
            var second := Queue.Next(Queue.Snapshot(reload, st.current, st.history), guildId, recent);
            && (r.outcome.NoSongs? <==> forall s :: s in reload ==> Queue.Skippable(s, guildId, recent))
            && (r.outcome.Started? ==> r.outcome.song in reload && r.outcome == Started(second.song.value))
            && r.after == second.after
  {
    var st1 := Queue.Snapshot(reload, st.current, st.history);
    Queue.NextNullCase(st1, guildId, recent);
    Queue.NextNeverPlaysSkippable(st1, guildId, recent);
  }

  // ---------------------------------------------------------------------------
  // The player
  // ---------------------------------------------------------------------------

  datatype PauseAction = Resumed | Paused

  /** The player's own changing fields, gathered so contracts can say what stays put. */
  datatype Controls = Controls(
    hasAudioPlayer: bool,
    guildId: Option<string>,
    volume: int,
    eqMode: string,
    isPaused: bool,
    isPlaying: bool,
    retryCount: nat,
    nowPlaying: Option<Song>)

  class MusicPlayer {
    const db: Store.SettingsStore
    const queue: Queue.MusicQueue
    const trending: Trending.TrendingFetcher
    const progress: Progress.ProgressTracker
    const maxRetries: nat
    const retryDelay: nat
    const maxVolume: int

    var hasAudioPlayer: bool
    var guildId: Option<string>
    var volume: int
    var eqMode: string
    var isPaused: bool
    var isPlaying: bool
    var retryCount: nat
    var nowPlaying: Option<Song>

    /** The queue shares the player's database, and the retry counter stays within its
        maximum. */
    ghost predicate Valid()
      reads this, queue
    {
      queue.db == db && queue.Valid() && retryCount <= maxRetries
    }

    function State(): Controls
      reads this
    {
      Controls(hasAudioPlayer, guildId, volume, eqMode, isPaused, isPlaying, retryCount, nowPlaying)
    }

    constructor (db: Store.SettingsStore, queue: Queue.MusicQueue, trending: Trending.TrendingFetcher,
                 defaultVolume: int, defaultEQ: string, maxRetries: nat, retryDelay: nat, maxVolume: int)
      requires queue.db == db && queue.Valid()
      ensures Valid() && fresh(progress)
      ensures this.db == db && this.queue == queue && this.trending == trending
      ensures this.maxRetries == maxRetries && this.retryDelay == retryDelay && this.maxVolume == maxVolume
      ensures State() == Controls(false, None, defaultVolume, defaultEQ, false, false, 0, None)
      ensures forall t :: progress.Elapsed(t) == 0
    {
      this.db := db;
      this.queue := queue;
      this.trending := trending;
      this.maxRetries := maxRetries;
      this.retryDelay := retryDelay;
      this.maxVolume := maxVolume;
      progress := new Progress.ProgressTracker();
      hasAudioPlayer := false;
      guildId := None;
      volume := defaultVolume;
      eqMode := defaultEQ;
      isPaused := false;
      isPlaying := false;
      retryCount := 0;
      nowPlaying := None;
    }

    /** initialize: binds the guild, lets the queue read its shuffle mode, takes the volume
        (50 when unset) and the equalizer mode ('normal' when unset) from the guild's
        settings, and creates the audio player. */
    method Initialize(id: string)
      requires Valid()
      modifies this, queue, db
      ensures Valid()
      ensures db.rows == if id in old(db.rows) then old(db.rows) else old(db.rows)[id := Store.DefaultSettings]
      ensures guildId == Some(id) && hasAudioPlayer
      ensures volume == if db.rows[id].volume != 0 then db.rows[id].volume else 50
      ensures eqMode == if db.rows[id].eqMode != "" then db.rows[id].eqMode else "normal"
      ensures queue.shuffleMode <==> db.rows[id].shuffleMode == 1
      ensures queue.State() == old(queue.State())
      ensures isPaused == old(isPaused) && isPlaying == old(isPlaying)
      ensures retryCount == old(retryCount) && nowPlaying == old(nowPlaying)
    {
      guildId := Some(id);
      queue.SetGuildId(id);
      var settings := db.GetSettings(id);
      volume := if settings.volume != 0 then settings.volume else 50;
      eqMode := if settings.eqMode != "" then settings.eqMode else "normal";
      hasAudioPlayer := true;
    }

    /** The successful part of playSong: the song plays and the progress tracker starts over
        with its duration. */
    method StartSong(song: Song, now: int)
      requires Valid()
      modifies this, progress
      ensures Valid()
      ensures State() == old(State()).(nowPlaying := Some(song))
      ensures progress.startTime == Some(now) && progress.duration == song.duration
      ensures progress.Elapsed(now) == 0 && !progress.IsPaused()
    {
      nowPlaying := Some(song);
      progress.Start(song.duration, now);
    }

    /** pause: only a playing player with an audio player pauses; the progress clock then
        stands still at its reading. */
    method Pause(now: int) returns (ok: bool)
      requires Valid()
      modifies this, progress
      ensures Valid()
      ensures ok <==> old(hasAudioPlayer) && old(isPlaying)
      ensures ok ==> State() == old(State()).(isPaused := true)
      ensures ok ==> progress.IsPaused() && forall t :: progress.Elapsed(t) == old(progress.Elapsed(now))
      ensures !ok ==> State() == old(State()) && unchanged(progress)
    {
      if hasAudioPlayer && isPlaying {
        progress.Pause(now);
        isPaused := true;
        return true;
      }
      return false;
    }

    /** resume: only a paused player with an audio player resumes; the progress clock goes on
        from where it stood. */
    method Resume(now: int) returns (ok: bool)
      requires Valid()
      modifies this, progress
      ensures Valid()
      ensures ok <==> old(hasAudioPlayer) && old(isPaused)
      ensures ok ==> State() == old(State()).(isPaused := false)
      ensures ok ==> !progress.IsPaused() && progress.Elapsed(now) == old(progress.Elapsed(now))
      ensures !ok ==> State() == old(State()) && unchanged(progress)
    {
      if hasAudioPlayer && isPaused {
        progress.Resume(now);
        isPaused := false;
        return true;
      }
      return false;
    }

    /** togglePause: resumes a paused player and pauses any other; when the step succeeds the
        pause state has flipped, and the progress clock freezes on a pause and goes on from
        its reading on a resume. */
    method TogglePause(now: int) returns (action: PauseAction, result: bool)
      requires Valid()
      modifies this, progress
      ensures Valid()
      ensures action == if old(isPaused) then Resumed else Paused
      ensures result <==> old(hasAudioPlayer) && (old(isPaused) || old(isPlaying))
      ensures result ==> isPaused == !old(isPaused)
      ensures result && !old(isPaused) ==>
                State() == old(State()).(isPaused := true)
                && progress.IsPaused() && forall t :: progress.Elapsed(t) == old(progress.Elapsed(now))
      ensures result && old(isPaused) ==>
                State() == old(State()).(isPaused := false)
                && !progress.IsPaused() && progress.Elapsed(now) == old(progress.Elapsed(now))
      ensures !result ==> State() == old(State()) && unchanged(progress)
    {
      if isPaused {
        action := Resumed;
        result := Resume(now);
      } else {
        action := Paused;
        result := Pause(now);
      }
    }

    /** getVolume, in percent. */
    function GetVolume(): int
      reads this
    {
      volume
    }

    /** setVolume: clamps to 0..maxVolume, stores the value for a known guild and returns it. */
    method SetVolume(percent: int) returns (v: int)
      requires Valid()
      modifies this, db
      ensures Valid()
      ensures v == ClampVolume(percent, maxVolume) && GetVolume() == v
      ensures State() == old(State()).(volume := v)
      ensures Queue.GuildSet(guildId) ==>
                db.rows == old(db.rows)[guildId.value := Store.Apply(
                  if guildId.value in old(db.rows) then old(db.rows)[guildId.value] else Store.DefaultSettings,
                  Store.Volume(v))]
      ensures !Queue.GuildSet(guildId) ==> db.rows == old(db.rows)
    {
      volume := if percent > maxVolume then (if maxVolume < 0 then 0 else maxVolume)
                else if percent < 0 then 0 else percent;
      if Queue.GuildSet(guildId) {
        db.UpdateSetting(guildId.value, Store.Volume(volume));
      }
      v := volume;
    }

    /** getEQFilters for the current mode. */
    function GetEqFilters(): seq<string>
      reads this
    {
      EqFilters(eqMode)
    }

    /** setEQ: refuses a mode outside the four presets and changes nothing; otherwise sets
        and stores the mode and, while a song is playing, starts that song again. */
    method SetEq(mode: string, now: int) returns (ok: bool)
      requires Valid()
      modifies this, db, progress
      ensures Valid()
      ensures ok <==> mode in ValidModes
      ensures !ok ==> State() == old(State()) && db.rows == old(db.rows) && unchanged(progress)
      ensures ok && Queue.GuildSet(guildId) ==>
                db.rows == old(db.rows)[guildId.value := Store.Apply(
                  if guildId.value in old(db.rows) then old(db.rows)[guildId.value] else Store.DefaultSettings,
                  Store.EqMode(mode))]
      ensures ok && !Queue.GuildSet(guildId) ==> db.rows == old(db.rows)
      ensures ok && old(queue.currentSong).Some? && old(isPlaying) ==>
                State() == old(State()).(eqMode := mode, nowPlaying := old(queue.currentSong))
                && progress.startTime == Some(now) && progress.duration == old(queue.currentSong).value.duration
      ensures ok && !(old(queue.currentSong).Some? && old(isPlaying)) ==>
                State() == old(State()).(eqMode := mode) && unchanged(progress)
    {
      if mode !in ValidModes {
        return false;
      }
      eqMode := mode;
      if Queue.GuildSet(guildId) {
        db.UpdateSetting(guildId.value, Store.EqMode(mode));
      }
      var current := queue.currentSong;
      if current.Some? && isPlaying {
        StartSong(current.value, now);
      }
      return true;
    }

    /** loadTrendingPlaylist, checked against PlaylistSongs: the songs go to the end of the
        queue as automatic songs, shuffled when the queue is in shuffle mode, and every one
        of them has a source. */
    method LoadTrendingPlaylist(latest: seq<Song>, resolve: Resolver, pick: Helpers.Random, now: nat)
      requires Valid()
      modifies queue
      ensures Valid()
      ensures queue.queue == old(queue.queue) + Reloaded(trending.GetCachedSongs(latest), queue.shuffleMode, resolve, pick, now)
      ensures forall i :: |old(queue.queue)| <= i < |queue.queue| ==>
                HasSource(queue.queue[i]) && !queue.queue[i].isManualRequest
      ensures queue.currentSong == old(queue.currentSong) && queue.history == old(queue.history)
      ensures queue.shuffleMode == old(queue.shuffleMode) && queue.guildId == old(queue.guildId)
    {
      var songs := trending.GetCachedSongs(latest);
      if |songs| == 0 {
        songs := Trending.HardcodedTrending();
        Trending.HardcodedFacts();
        ghost var h := songs;
        for i := 0 to LookupLimit
          invariant |songs| == |h|
          invariant forall j :: 0 <= j < |h| ==> songs[j] == if j < i then LookUpFirst(h, resolve)[j] else h[j]
        {
          var yt := resolve(Query(songs[i]));
          if yt.Some? {
            songs := songs[i := WithHit(songs[i], yt.value)];
          }
        }
        assert songs == LookUpFirst(h, resolve);
      }
      var validSongs := Playable(songs);
      StampedPlaylistPlayable(validSongs, queue.shuffleMode, pick, now);
      queue.AddSongs(validSongs, queue.shuffleMode, pick, now);
    }

    /** The end of playNext for the song getNext handed out (the queue's current song): a
        song with a source plays; one without is searched for, and plays with the answer
        filled into the queue's record, or nothing happens when the search finds nothing. */
    method PlayTaken(s: Song, resolve: Resolver, now: nat) returns (played: Option<Song>)
      requires Valid() && queue.currentSong == Some(s)
      modifies this, queue, progress
      ensures Valid()
      ensures HasSource(s) ==> played == Some(s)
      ensures !HasSource(s) ==> played == match resolve(Query(s)) case Some(hit) => Some(WithHit(s, hit)) case None => None
      ensures played.Some? ==>
                && queue.State() == old(queue.State()).(current := played)
                && State() == old(State()).(nowPlaying := played)
                && progress.startTime == Some(now) && progress.duration == played.value.duration
                && !progress.IsPaused()
      ensures played.None? ==> queue.State() == old(queue.State()) && State() == old(State())
      ensures queue.shuffleMode == old(queue.shuffleMode) && queue.guildId == old(queue.guildId)
    {
      var song := s;
      if song.youtubeUrl == "" && song.youtubeId == "" {
        var yt := resolve(Query(song));
        if yt.Some? {
          queue.FillCurrent(yt.value);
          song := WithHit(song, yt.value);
        } else {
          return None;
        }
      }
      StartSong(song, now);
      played := Some(song);
    }

    /** getNext followed by the start of the song it hands out, on a queue whose songs all
        have a source: the song getNext gives starts as it is, and nothing starts when it
        gives nothing. */
    method PlayFirst(recent: set<string>, resolve: Resolver, now: nat) returns (outcome: PlayOutcome)
      requires Valid() && forall s :: s in queue.queue ==> HasSource(s)
      modifies this, queue, progress
      ensures Valid()
      ensures var step := Queue.Next(old(queue.State()), queue.guildId, recent);
              && outcome == (if step.song.None? then NoSongs else Started(step.song.value))
              && queue.State() == step.after
      ensures outcome.NoSongs? ==> State() == old(State())
      ensures outcome.Started? ==>
                && State() == old(State()).(nowPlaying := Some(outcome.song))
                && progress.startTime == Some(now) && progress.duration == outcome.song.duration
                && !progress.IsPaused()
      ensures queue.shuffleMode == old(queue.shuffleMode) && queue.guildId == old(queue.guildId)
    {
      Queue.NextNeverPlaysSkippable(queue.State(), queue.guildId, recent);
      var song := queue.GetNext(recent);
      if song.None? {
        return NoSongs;
      }
      var played := PlayTaken(song.value, resolve, now);
      return Started(played.value);
    }

    /** The reloading half of playNext, once getNext has emptied the queue: the playlist is
        appended and getNext asked once more; a reloaded song always has a source. */
    method PlayReloaded(recent: set<string>, latest: seq<Song>, resolve: Resolver, pick: Helpers.Random, now: nat)
      returns (outcome: PlayOutcome)
      requires Valid() && queue.queue == []
      modifies this, queue, progress
      ensures Valid()
      ensures var second := Queue.Next(
                Queue.Snapshot(Reloaded(trending.GetCachedSongs(latest), queue.shuffleMode, resolve, pick, now),
                               old(queue.currentSong), old(queue.history)),
                queue.guildId, recent);
              && outcome == (if second.song.None? then NoSongs else Started(second.song.value))
              && queue.State() == second.after
      ensures outcome.NoSongs? ==> State() == old(State())
      ensures outcome.Started? ==>
                && State() == old(State()).(nowPlaying := Some(outcome.song))
                && progress.startTime == Some(now) && progress.duration == outcome.song.duration
                && !progress.IsPaused()
      ensures queue.shuffleMode == old(queue.shuffleMode) && queue.guildId == old(queue.guildId)
    {
      ghost var reload := Reloaded(trending.GetCachedSongs(latest), queue.shuffleMode, resolve, pick, now);
      ghost var st1 := Queue.Snapshot(reload, queue.currentSong, queue.history);
      LoadTrendingPlaylist(latest, resolve, pick, now);
      assert queue.State() == st1;
      outcome := PlayFirst(recent, resolve, now);
    }

    /** playNext, checked against PlayNextSpec with the playlist loadTrendingPlaylist would
        append. A song that starts always has a source, and the queue's current song is
        that same record. */
    method PlayNext(recent: set<string>, latest: seq<Song>, resolve: Resolver, pick: Helpers.Random, now: nat)
      returns (outcome: PlayOutcome)
      requires Valid()
      modifies this, queue, progress
      ensures Valid()
      ensures var r := PlayNextSpec(old(queue.State()), queue.guildId, recent,
                                    Reloaded(trending.GetCachedSongs(latest), queue.shuffleMode, resolve, pick, now), resolve);
              outcome == r.outcome && queue.State() == r.after
      ensures outcome.NoSongs? ==> State() == old(State())
      ensures outcome.Started? ==>
                && State() == old(State()).(nowPlaying := Some(outcome.song))
                && progress.startTime == Some(now) && progress.duration == outcome.song.duration
                && !progress.IsPaused()
      ensures queue.shuffleMode == old(queue.shuffleMode) && queue.guildId == old(queue.guildId)
      decreases |queue.queue|, 1
    {
      ghost var st0 := queue.State();
      ghost var reload := Reloaded(trending.GetCachedSongs(latest), queue.shuffleMode, resolve, pick, now);
      Queue.NextNeverPlaysSkippable(st0, queue.guildId, recent);
      var song := queue.GetNext(recent);
      if song.None? {
        PlayNextReloadsOnce(st0, queue.guildId, recent, reload, resolve);
        outcome := PlayReloaded(recent, latest, resolve, pick, now);
      } else {
        outcome := PlayOrSkip(st0, song.value, recent, latest, resolve, pick, now);
      }
    }

    /** The rest of playNext once getNext, asked on the queue st0, has handed out s: s plays
        (searched for when it has no source), or playNext begins again when the search finds
        nothing. */
    method PlayOrSkip(ghost st0: Queue.Snapshot, s: Song, recent: set<string>, latest: seq<Song>,
                      resolve: Resolver, pick: Helpers.Random, now: nat)
      returns (outcome: PlayOutcome)
      requires Valid()
      requires Queue.Next(st0, queue.guildId, recent) == Queue.Step(Some(s), queue.State())
      requires |queue.queue| < |st0.queue|
      modifies this, queue, progress
      ensures Valid()
      ensures var r := PlayNextSpec(st0, queue.guildId, recent,
                                    Reloaded(trending.GetCachedSongs(latest), queue.shuffleMode, resolve, pick, now), resolve);
              outcome == r.outcome && queue.State() == r.after
      ensures outcome.NoSongs? ==> State() == old(State())
      ensures outcome.Started? ==>
                && State() == old(State()).(nowPlaying := Some(outcome.song))
                && progress.startTime == Some(now) && progress.duration == outcome.song.duration
                && !progress.IsPaused()
      ensures queue.shuffleMode == old(queue.shuffleMode) && queue.guildId == old(queue.guildId)
      decreases |queue.queue| + 1, 0
    {
      PlayNextTakesNext(st0, queue.guildId, recent,
                        Reloaded(trending.GetCachedSongs(latest), queue.shuffleMode, resolve, pick, now), resolve);
      var played := PlayTaken(s, resolve, now);
      if played.Some? {
        outcome := Started(played.value);
      } else {
        outcome := PlayNext(recent, latest, resolve, pick, now);
      }
    }

    /** The audio player's Playing event: playing, not paused, and the retry counter back at 0,
        so the errors that follow count RetriesAfter(1), RetriesAfter(2), ... (RetryCycle). */
    method OnPlaying()
      requires Valid()
      modifies this
      ensures Valid()
      ensures State() == old(State()).(isPlaying := true, isPaused := false, retryCount := 0)
      ensures retryCount == RetriesAfter(0, maxRetries)
    {
      isPlaying := true;
      isPaused := false;
      retryCount := 0;
    }

    /** The audio player's Paused event: only the pause flag is set. */
    method OnPaused()
      requires Valid()
      modifies this
      ensures Valid()
      ensures State() == old(State()).(isPaused := true)
    {
      isPaused := true;
    }

    /** The Idle event: not playing any more, then playNext. The song that starts, or the
        absence of one, is that of PlayNextSpec on the queue as it was; a started song has a
        source. */
    method OnIdle(recent: set<string>, latest: seq<Song>, resolve: Resolver, pick: Helpers.Random, now: nat)
      returns (outcome: PlayOutcome)
      requires Valid()
      modifies this, queue, progress
      ensures Valid()
      ensures var r := PlayNextSpec(old(queue.State()), queue.guildId, recent,
                                    Reloaded(trending.GetCachedSongs(latest), queue.shuffleMode, resolve, pick, now), resolve);
              outcome == r.outcome && queue.State() == r.after
      ensures outcome.NoSongs? ==> State() == old(State()).(isPlaying := false)
      ensures outcome.Started? ==>
                && HasSource(outcome.song)
                && State() == old(State()).(isPlaying := false, nowPlaying := Some(outcome.song))
                && progress.startTime == Some(now) && progress.duration == outcome.song.duration
    {
      PlayNextStartsPlayable(queue.State(), queue.guildId, recent,
                             Reloaded(trending.GetCachedSongs(latest), queue.shuffleMode, resolve, pick, now), resolve);
      isPlaying := false;
      outcome := PlayNext(recent, latest, resolve, pick, now);
    }

    /** handleError: below the maximum it counts one more retry and waits retryDelay,
        otherwise it starts the count over and waits 30 seconds; then it plays the next song,
        as PlayNextSpec says. The counter never passes maxRetries. */
    method HandleError(recent: set<string>, latest: seq<Song>, resolve: Resolver, pick: Helpers.Random, now: nat)
      returns (delay: nat, outcome: PlayOutcome)
      requires Valid()
      modifies this, queue, progress
      ensures Valid()
      ensures retryCount == RetryAfter(old(retryCount), maxRetries) && retryCount <= maxRetries
      ensures delay == if old(retryCount) < maxRetries then retryDelay else 30000
      ensures var r := PlayNextSpec(old(queue.State()), queue.guildId, recent,
                                    Reloaded(trending.GetCachedSongs(latest), queue.shuffleMode, resolve, pick, now), resolve);
              outcome == r.outcome && queue.State() == r.after
      ensures outcome.NoSongs? ==> State() == old(State()).(retryCount := retryCount)
      ensures outcome.Started? ==>
                && HasSource(outcome.song)
                && State() == old(State()).(retryCount := retryCount, nowPlaying := Some(outcome.song))
    {
      PlayNextStartsPlayable(queue.State(), queue.guildId, recent,
                             Reloaded(trending.GetCachedSongs(latest), queue.shuffleMode, resolve, pick, now), resolve);
      if retryCount < maxRetries {
        retryCount := retryCount + 1;
        delay := retryDelay;
      } else {
        retryCount := 0;
        delay := 30000;
      }
      outcome := PlayNext(recent, latest, resolve, pick, now);
    }

    /** The audio player's error event: not playing, then the error handler. */
    method OnError(recent: set<string>, latest: seq<Song>, resolve: Resolver, pick: Helpers.Random, now: nat)
      returns (delay: nat, outcome: PlayOutcome)
      requires Valid()
      modifies this, queue, progress
      ensures Valid()
      ensures retryCount == RetryAfter(old(retryCount), maxRetries)
      ensures delay == if old(retryCount) < maxRetries then retryDelay else 30000
      ensures var r := PlayNextSpec(old(queue.State()), queue.guildId, recent,
                                    Reloaded(trending.GetCachedSongs(latest), queue.shuffleMode, resolve, pick, now), resolve);
              outcome == r.outcome && queue.State() == r.after
      ensures State() == old(State()).(isPlaying := false, retryCount := retryCount, nowPlaying := nowPlaying)
    {
      isPlaying := false;
      delay, outcome := HandleError(recent, latest, resolve, pick, now);
    }

    /** stop: not playing, not paused, the waiting songs dropped; the song that was playing
        and the history stay. */
    method Stop()
      requires Valid()
      modifies this, queue
      ensures Valid()
      ensures State() == old(State()).(isPlaying := false, isPaused := false)
      ensures queue.queue == [] && queue.currentSong == old(queue.currentSong) && queue.history == old(queue.history)
    {
      isPlaying := false;
      isPaused := false;
      queue.ClearQueue();
    }
  }
}
