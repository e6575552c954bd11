/** src/trending.js: where the automatic songs come from. fetchAll asks the configured
    sources in order and keeps the first non-empty answer, falls back to a built-in list,
    looks every song up on YouTube, numbers the songs and caches them. The network, the
    HTML scraper and yt-dlp are replaced by their answers: one SourceOutcome per configured
    source, the rows a scraper found, the lines a search printed and a Resolver for the
    single-song search. */
module Trending {
  import opened Optional
  import opened Songs
  import Helpers

  // ---------------------------------------------------------------------------
  // fetchAll: choosing a source
  // ---------------------------------------------------------------------------

  /** What asking one configured source gave: it threw, or it returned a list (an unknown
      source name returns the empty list). */
  datatype SourceOutcome = Threw | Returned(songs: seq<Song>)

  predicate Succeeded(o: SourceOutcome)
  {
    o.Returned? && |o.songs| > 0
  }

  /** The position of the first source that returned songs (|outcomes| if none did). */
  function FirstSuccess(outcomes: seq<SourceOutcome>): (k: nat)
    ensures k <= |outcomes|
    ensures forall j :: 0 <= j < k ==> !Succeeded(outcomes[j])
    ensures k < |outcomes| ==> Succeeded(outcomes[k])
  {
    if outcomes == [] || Succeeded(outcomes[0]) then 0 else 1 + FirstSuccess(outcomes[1..])
  }

  lemma FirstSuccessAt(outcomes: seq<SourceOutcome>, k: nat)
    requires k <= |outcomes|
    requires forall j :: 0 <= j < k ==> !Succeeded(outcomes[j])
    requires k < |outcomes| ==> Succeeded(outcomes[k])
    ensures FirstSuccess(outcomes) == k
  {
  }

  /** The list fetchAll goes on with: the first non-empty answer, else the built-in list. */
  function SelectSongs(outcomes: seq<SourceOutcome>): seq<Song>
  {
    var k := FirstSuccess(outcomes);
    if k < |outcomes| then outcomes[k].songs else HardcodedTrending()
  }

  /** The chosen list is never empty; it is the built-in list exactly when no source
      returned songs, and otherwise the answer of the first source that did, every earlier
      source having thrown or returned nothing. */
  lemma SelectSongsChoice(outcomes: seq<SourceOutcome>)
    ensures |SelectSongs(outcomes)| > 0
    ensures (forall j :: 0 <= j < |outcomes| ==> !Succeeded(outcomes[j]))
              ==> SelectSongs(outcomes) == HardcodedTrending()
    ensures forall k :: 0 <= k < |outcomes| && Succeeded(outcomes[k])
              && (forall j :: 0 <= j < k ==> !Succeeded(outcomes[j]))
              ==> SelectSongs(outcomes) == outcomes[k].songs
  {
    HardcodedFacts();
    forall k | 0 <= k < |outcomes| && Succeeded(outcomes[k]) && (forall j :: 0 <= j < k ==> !Succeeded(outcomes[j]))
      ensures SelectSongs(outcomes) == outcomes[k].songs
    {
      FirstSuccessAt(outcomes, k);
    }
    if forall j :: 0 <= j < |outcomes| ==> !Succeeded(outcomes[j]) {
      FirstSuccessAt(outcomes, |outcomes|);
    }
  }

  // ---------------------------------------------------------------------------
  // fetchAll: looking the songs up and numbering them
  // ---------------------------------------------------------------------------

  /** A song without a URL or without an id is searched for; a found answer fills in its
      source. Then the song gets the rank i + 1. */
  function Enrich(song: Song, i: nat, resolve: Resolver): Song
  {
    var searched :=
      if song.youtubeUrl == "" || song.youtubeId == "" then
        match resolve(Query(song))
        case Some(hit) => WithHit(song, hit)
        case None => song
      else song;
    searched.(rank := i + 1)
  }

  function EnrichAll(songs: seq<Song>, resolve: Resolver): seq<Song>
  {
    seq(|songs|, i requires 0 <= i < |songs| => Enrich(songs[i], i, resolve))
  }

  /** The enriched list has the songs of the chosen list in order, ranked by position; a song
      that already had both a URL and an id keeps them, and one the search answered now has
      a source. */
  lemma EnrichAllFacts(songs: seq<Song>, resolve: Resolver)
    ensures var r := EnrichAll(songs, resolve);
            && |r| == |songs|
            && (forall i :: 0 <= i < |r| ==> r[i].rank == i + 1)
            && (forall i :: 0 <= i < |r| ==>
                  r[i].title == songs[i].title && r[i].artist == songs[i].artist && r[i].genre == songs[i].genre)
            && (forall i :: 0 <= i < |r| && songs[i].youtubeUrl != "" && songs[i].youtubeId != "" ==>
                  r[i].youtubeUrl == songs[i].youtubeUrl && r[i].youtubeId == songs[i].youtubeId)
            && (forall i :: 0 <= i < |r| && resolve(Query(songs[i])).Some? ==> HasSource(r[i]))
  {
  }

  // ---------------------------------------------------------------------------
  // The built-in list
  // ---------------------------------------------------------------------------

  /** Title, artist and genre of the 50 built-in songs, in chart order. */
  const HardcodedTable: seq<(string, string, string)> := [
    ("Paint The Town Red", "Doja Cat", "hiphop"),
    ("Cruel Summer", "Taylor Swift", "pop"),
    ("Snooze", "SZA", "rnb"),
    ("Vampire", "Olivia Rodrigo", "pop"),
    ("Last Night", "Morgan Wallen", "pop"),
    ("Kill Bill", "SZA", "rnb"),
    ("Flowers", "Miley Cyrus", "pop"),
    ("As It Was", "Harry Styles", "pop"),
    ("Anti-Hero", "Taylor Swift", "pop"),
    ("Unholy", "Sam Smith", "pop"),
    ("About Damn Time", "Lizzo", "pop"),
    ("Heat Waves", "Glass Animals", "alternative"),
    ("Bad Habit", "Steve Lacy", "rnb"),
    ("Calm Down", "Rema & Selena Gomez", "pop"),
    ("Cupid", "Fifty Fifty", "pop"),
    ("Creepin'", "Metro Boomin ft. The Weeknd & 21 Savage", "hiphop"),
    ("Boy's a Liar Pt 2", "PinkPantheress & Ice Spice", "pop"),
    ("Die For You", "The Weeknd & Ariana Grande", "pop"),
    ("Fukumean", "Gunna", "hiphop"),
    ("Daylight", "David Kushner", "pop"),
    ("All My Life", "Lil Durk ft. J. Cole", "hiphop"),
    ("Fast Car", "Luke Combs", "pop"),
    ("Escapism", "RAYE ft. 070 Shake", "pop"),
    ("Thinkin' Bout Me", "Morgan Wallen", "pop"),
    ("Need a Favor", "Jelly Roll", "pop"),
    ("Dance The Night", "Dua Lipa", "pop"),
    ("Karma", "Taylor Swift ft. Ice Spice", "pop"),
    ("Rich Flex", "Drake & 21 Savage", "hiphop"),
    ("Sprinter", "Dave & Central Cee", "hiphop"),
    ("Greedy", "Tate McRae", "pop"),
    ("Used To Be Young", "Miley Cyrus", "pop"),
    ("Water", "Tyla", "pop"),
    ("Stick Season", "Noah Kahan", "alternative"),
    ("Strangers", "Kenya Grace", "electronic"),
    ("Standing Next To You", "Jung Kook", "pop"),
    ("Seven", "Jung Kook ft. Latto", "pop"),
    ("What Was I Made For?", "Billie Eilish", "pop"),
    ("Lil Boo Thang", "Paul Russell", "pop"),
    ("Popular", "The Weeknd & Playboi Carti", "hiphop"),
    ("Trustfall", "P!nk", "pop"),
    ("Eyes Closed", "Ed Sheeran", "pop"),
    ("Tattoo", "Loreen", "pop"),
    ("I Wanna Be Yours", "Arctic Monkeys", "rock"),
    ("Super Shy", "NewJeans", "pop"),
    ("OMG", "NewJeans", "pop"),
    ("Hype Boy", "NewJeans", "pop"),
    ("MONTERO", "Lil Nas X", "pop"),
    ("Physical", "Dua Lipa", "pop"),
    ("Levitating", "Dua Lipa", "pop"),
    ("Blinding Lights", "The Weeknd", "pop")
  ]

  /** getHardcodedTrending: the table with ranks and the source 'hardcoded'. */
  function HardcodedTrending(): seq<Song>
  {
    seq(|HardcodedTable|, i requires 0 <= i < |HardcodedTable| =>
      Bare(HardcodedTable[i].0, HardcodedTable[i].1, HardcodedTable[i].2).(rank := i + 1, source := "hardcoded"))
  }

  /** The built-in list has 50 songs ranked 1 to 50, all from 'hardcoded', none with a
      playable source yet. */
  lemma HardcodedFacts()
    ensures |HardcodedTrending()| == 50
    ensures forall i :: 0 <= i < 50 ==> HardcodedTrending()[i].rank == i + 1
    ensures forall i :: 0 <= i < 50 ==> HardcodedTrending()[i].source == "hardcoded"
    ensures forall i :: 0 <= i < 50 ==> !HasSource(HardcodedTrending()[i]) && !HardcodedTrending()[i].isManualRequest
  {
  }

  // ---------------------------------------------------------------------------
  // fetchFromTokboard: the rows the scraper found
  // ---------------------------------------------------------------------------

  /** The first 200 characters (`substring(0, 200)`). */
  function Clip(s: string): string
  {
    s[..Helpers.SliceEnd(|s|, 200)]
  }

  const SongNameHeader: string := "song name"

  /** The row test: a title longer than one character that is not the header row. */
  predicate TokboardAccepts(title: string)
  {
    |title| > 1 && !Helpers.Contains(Helpers.ToLower(title), SongNameHeader)
  }

  function TokboardSong(title: string, artist: string, rank: nat): Song
  {
    var a := Clip(artist);
    Bare(Clip(title), if a == "" then "Unknown" else a, "pop").(rank := rank, source := "tokboard")
  }

  /** The songs the scraper collects from (title, artist) rows, before the cap. */
  function Board(rows: seq<(string, string)>): seq<Song>
  {
    if rows == [] then []
    else
      var prev := Board(rows[..|rows| - 1]);
      var row := rows[|rows| - 1];
      if TokboardAccepts(row.0) then prev + [TokboardSong(row.0, row.1, |prev| + 1)] else prev
  }

  /** Cutting a title to 200 characters cannot bring the header text into it. */
  lemma ClipStaysClean(title: string)
    requires TokboardAccepts(title)
    ensures 1 < |Clip(title)| <= 200
    ensures !Helpers.Contains(Helpers.ToLower(Clip(title)), SongNameHeader)
  {
    var t := Clip(title);
    Helpers.ToLowerPrefix(title, |t|);
    if Helpers.Contains(Helpers.ToLower(t), SongNameHeader) {
      Helpers.ContainsInPrefix(Helpers.ToLower(title), |t|, SongNameHeader);
    }
  }

  /** What the scraper keeps: no header row, titles of 2 to 200 characters, an artist
      (at worst 'Unknown') and ranks by position. */
  lemma {:induction false} BoardShape(rows: seq<(string, string)>)
    ensures var b := Board(rows);
            && |b| <= |rows|
            && (forall i :: 0 <= i < |b| ==> b[i].rank == i + 1 && b[i].source == "tokboard" && b[i].genre == "pop")
            && (forall i :: 0 <= i < |b| ==> 1 < |b[i].title| <= 200 && b[i].artist != "")
            && (forall i :: 0 <= i < |b| ==> !Helpers.Contains(Helpers.ToLower(b[i].title), SongNameHeader))
  {
    if rows != [] {
      var rows' := rows[..|rows| - 1];
      BoardShape(rows');
      var prev := Board(rows');
      var row := rows[|rows| - 1];
      if TokboardAccepts(row.0) {
        ClipStaysClean(row.0);
        var b := Board(rows);
        assert b == prev + [TokboardSong(row.0, row.1, |prev| + 1)];
        assert b[|prev|].title == Clip(row.0);
      }
    }
  }

  /** The positions of the rows the scraper accepts, in row order: exactly the rows whose
      title passes TokboardAccepts. */
  function AcceptedRows(rows: seq<(string, string)>): (f: seq<nat>)
    ensures forall i :: 0 <= i < |f| ==> f[i] < |rows| && TokboardAccepts(rows[f[i]].0)
    ensures forall i, i' :: 0 <= i < i' < |f| ==> f[i] < f[i']
    ensures forall j :: 0 <= j < |rows| && TokboardAccepts(rows[j].0) ==> j in f
  {
    if rows == [] then []
    else
      var prev := AcceptedRows(rows[..|rows| - 1]);
      assert forall j :: 0 <= j < |rows| - 1 ==> rows[..|rows| - 1][j] == rows[j];
      if TokboardAccepts(rows[|rows| - 1].0) then prev + [|rows| - 1] else prev
  }

  /** The k-th Tokboard song is made from the k-th accepted row, with rank k + 1. */
  lemma {:induction false} BoardFollowsRows(rows: seq<(string, string)>)
    ensures var b, f := Board(rows), AcceptedRows(rows);
            && |b| == |f|
            && forall i :: 0 <= i < |b| ==> b[i] == TokboardSong(rows[f[i]].0, rows[f[i]].1, i + 1)
  {
    if rows != [] {
      var rows' := rows[..|rows| - 1];
      BoardFollowsRows(rows');
      var b', f' := Board(rows'), AcceptedRows(rows');
      var b, f := Board(rows), AcceptedRows(rows);
      var row := rows[|rows| - 1];
      if TokboardAccepts(row.0) {
        assert b == b' + [TokboardSong(row.0, row.1, |b'| + 1)];
        assert f == f' + [|rows| - 1];
        forall i | 0 <= i < |b| ensures b[i] == TokboardSong(rows[f[i]].0, rows[f[i]].1, i + 1) {
          if i < |b'| {
            assert rows'[f'[i]] == rows[f'[i]];
          }
        }
      } else {
        forall i | 0 <= i < |b| ensures b[i] == TokboardSong(rows[f[i]].0, rows[f[i]].1, i + 1) {
          assert rows'[f'[i]] == rows[f'[i]];
        }
      }
    }
  }

  /** What a row gives: its title cut to 200 characters, its artist cut likewise or
      'Unknown' when that leaves nothing, the rank, and the labels 'tokboard' and 'pop'. */
  lemma TokboardSongFields(title: string, artist: string, rank: nat)
    ensures var r := TokboardSong(title, artist, rank);
            && r.title == Clip(title) && |r.title| <= 200
            && r.artist == (if Clip(artist) == "" then "Unknown" else Clip(artist)) && r.artist != ""
            && r.rank == rank && r.source == "tokboard" && r.genre == "pop"
            && !HasSource(r) && !r.isManualRequest
  {
  }

  /** Every row the scraper accepts gives a song with its clipped title. */
  lemma {:induction false} BoardComplete(rows: seq<(string, string)>, j: nat)
    requires j < |rows| && TokboardAccepts(rows[j].0)
    ensures HasTitle(Board(rows), Clip(rows[j].0))
  {
    var rows' := rows[..|rows| - 1];
    var prev, b := Board(rows'), Board(rows);
    var row := rows[|rows| - 1];
    assert b[..|prev|] == prev;
    if j < |rows'| {
      assert rows'[j] == rows[j];
      BoardComplete(rows', j);
      var i :| 0 <= i < |prev| && prev[i].title == Clip(rows[j].0);
      assert b[i] == prev[i];
    } else {
      assert b == prev + [TokboardSong(row.0, row.1, |prev| + 1)];
      assert b[|prev|].title == Clip(rows[j].0);
    }
  }

  // ---------------------------------------------------------------------------
  // fetchFallbackTrending: the JSON lines of the three searches
  // ---------------------------------------------------------------------------

  /** One line a search printed: not JSON, or a record with the fields the bot reads
      (missing fields as "" or 0; firstThumbnail is `thumbnails[0].url`). */
  datatype SearchLine =
    | Malformed
    | Record(title: string, id: string, uploader: string, channel: string,
             thumbnail: string, firstThumbnail: string, duration: nat)

  predicate HasTitle(songs: seq<Song>, title: string)
  {
    exists i :: 0 <= i < |songs| && songs[i].title == title
  }

  function SearchSong(line: SearchLine, rank: nat): Song
    requires line.Record?
  {
    var artist := if line.uploader != "" then line.uploader
                  else if line.channel != "" then line.channel else "Unknown";
    var thumb := if line.thumbnail != "" then line.thumbnail else line.firstThumbnail;
    Song(line.title, artist, WatchPrefix + line.id, line.id, thumb, line.duration, rank,
         "pop", "youtube_search", "", false, 0, "")
  }

  /** The songs the searches collect, before the cap: the first record of every title. */
  function Collect(lines: seq<SearchLine>): seq<Song>
  {
    if lines == [] then []
    else
      var prev := Collect(lines[..|lines| - 1]);
      var line := lines[|lines| - 1];
      if line.Record? && line.title != "" && !HasTitle(prev, line.title)
      then prev + [SearchSong(line, |prev| + 1)]
      else prev
  }

  /** The searches give distinct, non-empty titles ranked by position, each with a watch URL
      of its id and an artist, and every titled record's title is among them. */
  lemma {:induction false} CollectFacts(lines: seq<SearchLine>)
    ensures var c := Collect(lines);
            && (forall i, j :: 0 <= i < j < |c| ==> c[i].title != c[j].title)
            && (forall i :: 0 <= i < |c| ==> c[i].rank == i + 1 && c[i].title != "" && c[i].artist != "")
            && (forall i :: 0 <= i < |c| ==> c[i].youtubeUrl == WatchPrefix + c[i].youtubeId && HasSource(c[i]))
            && (forall j :: 0 <= j < |lines| && lines[j].Record? && lines[j].title != "" ==>
                  HasTitle(c, lines[j].title))
  {
    if lines != [] {
      var lines' := lines[..|lines| - 1];
      CollectFacts(lines');
      var prev := Collect(lines');
      var line := lines[|lines| - 1];
      var c := Collect(lines);
      assert c[..|prev|] == prev;
      forall j | 0 <= j < |lines| && lines[j].Record? && lines[j].title != ""
        ensures HasTitle(c, lines[j].title)
      {
        if j < |lines'| {
          assert lines'[j] == lines[j];
          var i :| 0 <= i < |prev| && prev[i].title == lines[j].title;
          assert c[i] == prev[i];
        } else if !HasTitle(prev, line.title) {
          assert c[|prev|].title == line.title;
        } else {
          var i :| 0 <= i < |prev| && prev[i].title == line.title;
          assert c[i] == prev[i];
        }
      }
    }
  }

  /** A line fetchFallbackTrending keeps: a record with a title that no earlier record
      carries. */
  predicate FirstOfTitle(lines: seq<SearchLine>, j: nat)
    requires j < |lines|
  {
    && lines[j].Record? && lines[j].title != ""
    && forall k :: 0 <= k < j ==> !(lines[k].Record? && lines[k].title == lines[j].title)
  }

  /** The positions of the lines kept, in line order: exactly those that are the first
      record of their title. */
  function FirstRecords(lines: seq<SearchLine>): (f: seq<nat>)
    ensures forall i :: 0 <= i < |f| ==> f[i] < |lines| && FirstOfTitle(lines, f[i])
    ensures forall i, i' :: 0 <= i < i' < |f| ==> f[i] < f[i']
    ensures forall j :: 0 <= j < |lines| && FirstOfTitle(lines, j) ==> j in f
  {
    if lines == [] then []
    else
      var lines' := lines[..|lines| - 1];
      var prev := FirstRecords(lines');
      assert forall j :: 0 <= j < |lines'| ==> lines'[j] == lines[j];
      assert forall j :: 0 <= j < |lines'| ==> (FirstOfTitle(lines', j) <==> FirstOfTitle(lines, j));
      if FirstOfTitle(lines, |lines| - 1) then prev + [|lines| - 1] else prev
  }

  /** The k-th fallback song is built from the k-th line that is the first record of its
      title, with rank k + 1: a later record with a title already seen never replaces it. */
  lemma {:induction false} CollectKeepsFirstRecords(lines: seq<SearchLine>)
    ensures var c, f := Collect(lines), FirstRecords(lines);
            && |c| == |f|
            && forall i :: 0 <= i < |c| ==> c[i] == SearchSong(lines[f[i]], i + 1)
  {
    if lines != [] {
      var n := |lines| - 1;
      var lines' := lines[..n];
      CollectKeepsFirstRecords(lines');
      var c', f' := Collect(lines'), FirstRecords(lines');
      var c, f := Collect(lines), FirstRecords(lines);
      var line := lines[n];
      var keep := line.Record? && line.title != "" && !HasTitle(c', line.title);
      LastLineKept(lines);
      assert keep <==> FirstOfTitle(lines, n);
      if keep {
        assert c == c' + [SearchSong(line, |c'| + 1)];
        assert f == f' + [n];
        forall i | 0 <= i < |c| ensures c[i] == SearchSong(lines[f[i]], i + 1) {
          if i < |c'| {
            assert lines'[f'[i]] == lines[f'[i]];
          }
        }
      } else {
        forall i | 0 <= i < |c| ensures c[i] == SearchSong(lines[f[i]], i + 1) {
          assert lines'[f'[i]] == lines[f'[i]];
        }
      }
    }
  }

  /** The last line is kept exactly when it is the first record of its title. */
  lemma LastLineKept(lines: seq<SearchLine>)
    requires lines != []
    ensures var n := |lines| - 1;
            var line := lines[n];
            (line.Record? && line.title != "" && !HasTitle(Collect(lines[..n]), line.title))
              <==> FirstOfTitle(lines, n)
  {
    var n := |lines| - 1;
    var lines' := lines[..n];
    var line := lines[n];
    var c' := Collect(lines');
    if line.Record? && line.title != "" {
      if HasTitle(c', line.title) {
        CollectTitlesFromLines(lines');
        var k :| 0 <= k < n && lines'[k].Record? && lines'[k].title == line.title;
        assert lines[k] == lines'[k];
      } else {
        CollectFacts(lines');
        forall k | 0 <= k < n && lines[k].Record?
          ensures lines[k].title != line.title
        {
          assert lines'[k] == lines[k];
        }
      }
    }
  }

  /** Every collected title is the title of some record. */
  lemma {:induction false} CollectTitlesFromLines(lines: seq<SearchLine>)
    ensures forall t :: HasTitle(Collect(lines), t) ==>
              exists k :: 0 <= k < |lines| && lines[k].Record? && lines[k].title == t
  {
    if lines != [] {
      var lines' := lines[..|lines| - 1];
      CollectTitlesFromLines(lines');
      var c', c := Collect(lines'), Collect(lines);
      forall t | HasTitle(c, t)
        ensures exists k :: 0 <= k < |lines| && lines[k].Record? && lines[k].title == t
      {
        var i :| 0 <= i < |c| && c[i].title == t;
        if i < |c'| {
          assert c[i] == c'[i];
          assert HasTitle(c', t);
          var k :| 0 <= k < |lines'| && lines'[k].Record? && lines'[k].title == t;
          assert lines[k] == lines'[k];
        } else {
          assert lines[|lines| - 1].title == t;
        }
      }
    }
  }

  // ---------------------------------------------------------------------------
  // The fetcher
  // ---------------------------------------------------------------------------

  class TrendingFetcher {
    var cache: seq<Song>
    var lastFetch: Option<int>
    const maxSongs: int

    constructor (maxSongs: int)
      ensures cache == [] && lastFetch == None && this.maxSongs == maxSongs
    {
      this.maxSongs := maxSongs;
      cache := [];
      lastFetch := None;
    }

    /** getCachedSongs: the cache, or when it is empty what the database holds for the
        latest fetch day (`latest`, already limited to maxSongs). */
    function GetCachedSongs(latest: seq<Song>): seq<Song>
      reads this
    {
      if |cache| > 0 then cache else latest
    }

    /** fetchAll, checked against SelectSongs and EnrichAll. The result is never empty, so
        the cache is always replaced by it and the fetch time is set. */
    method FetchAll(outcomes: seq<SourceOutcome>, resolve: Resolver, now: int) returns (enrichedSongs: seq<Song>)
      modifies this
      ensures enrichedSongs == EnrichAll(SelectSongs(outcomes), resolve)
      ensures |enrichedSongs| > 0
      ensures cache == enrichedSongs && lastFetch == Some(now)
      ensures forall latest :: GetCachedSongs(latest) == enrichedSongs
    {
      var songs: seq<Song> := [];
      var k := 0;
      while k < |outcomes|
        invariant 0 <= k <= |outcomes|
        invariant songs == []
        invariant forall j :: 0 <= j < k ==> !Succeeded(outcomes[j])
      {
        var outcome := outcomes[k];
        if outcome.Returned? && |outcome.songs| > 0 {
          songs := outcome.songs;
          FirstSuccessAt(outcomes, k);
          break;
        }
        k := k + 1;
      }
      if |songs| == 0 {
        FirstSuccessAt(outcomes, |outcomes|);
        songs := HardcodedTrending();
      }
      assert songs == SelectSongs(outcomes);

      enrichedSongs := [];
      for i := 0 to |songs|
        invariant |enrichedSongs| == i
        invariant forall j :: 0 <= j < i ==> enrichedSongs[j] == Enrich(songs[j], j, resolve)
      {
        var song := songs[i];
        if song.youtubeUrl == "" || song.youtubeId == "" {
          var ytResult := resolve(Query(song));
          if ytResult.Some? {
            song := WithHit(song, ytResult.value);
          }
        }
        song := song.(rank := i + 1);
        enrichedSongs := enrichedSongs + [song];
      }
      SelectSongsChoice(outcomes);

      if |enrichedSongs| > 0 {
        cache := enrichedSongs;
        lastFetch := Some(now);
      }
    }

    /** fetchFromTokboard over the rows the scraper found, checked against Board: the k-th
        song is made from the k-th accepted row, and at most maxSongs songs are kept. */
    method FetchFromTokboard(rows: seq<(string, string)>) returns (songs: seq<Song>)
      ensures songs == Board(rows)[..Helpers.SliceEnd(|Board(rows)|, maxSongs)]
      ensures 0 <= maxSongs ==> |songs| <= maxSongs
      ensures forall i :: 0 <= i < |songs| ==>
                songs[i].rank == i + 1 && 1 < |songs[i].title| <= 200 && songs[i].artist != ""
                && !Helpers.Contains(Helpers.ToLower(songs[i].title), SongNameHeader)
      ensures var f := AcceptedRows(rows);
              forall i :: 0 <= i < |songs| ==> i < |f| && songs[i] == TokboardSong(rows[f[i]].0, rows[f[i]].1, i + 1)
    {
      songs := [];
      for k := 0 to |rows|
        invariant songs == Board(rows[..k])
      {
        var (title, artist) := rows[k];
        if |title| > 1 && !Helpers.Contains(Helpers.ToLower(title), SongNameHeader) {
          songs := songs + [TokboardSong(title, artist, |songs| + 1)];
        }
        assert rows[..k + 1][..k] == rows[..k];
      }
      assert rows[..|rows|] == rows;
      BoardShape(rows);
      BoardFollowsRows(rows);
      songs := songs[..Helpers.SliceEnd(|songs|, maxSongs)];
    }

    /** fetchFallbackTrending over the lines the three searches printed, in order, checked
        against Collect: the k-th song is made from the k-th first record of a title, and at
        most maxSongs songs with distinct titles are kept. */
    method FetchFallbackTrending(lines: seq<SearchLine>) returns (songs: seq<Song>)
      ensures songs == Collect(lines)[..Helpers.SliceEnd(|Collect(lines)|, maxSongs)]
      ensures 0 <= maxSongs ==> |songs| <= maxSongs
      ensures forall i, j :: 0 <= i < j < |songs| ==> songs[i].title != songs[j].title
      ensures forall i :: 0 <= i < |songs| ==> songs[i].rank == i + 1 && HasSource(songs[i])
      ensures var f := FirstRecords(lines);
              forall i :: 0 <= i < |songs| ==> i < |f| && songs[i] == SearchSong(lines[f[i]], i + 1)
    {
      songs := [];
      for k := 0 to |lines|
        invariant songs == Collect(lines[..k])
      {
        var data := lines[k];
        if data.Record? && data.title != "" && !HasTitle(songs, data.title) {
          songs := songs + [SearchSong(data, |songs| + 1)];
        }
        assert lines[..k + 1][..k] == lines[..k];
      }
      assert lines[..|lines|] == lines;
      CollectFacts(lines);
      CollectKeepsFirstRecords(lines);
      songs := songs[..Helpers.SliceEnd(|songs|, maxSongs)];
    }
  }
}
