/** The song record every component passes around, and the answer of the YouTube search
    (searchYouTube in src/trending.js) that fills in its playable source. Fields the
    source leaves undefined are "" or 0 here, which JavaScript treats alike. */
module Songs {
  import opened Optional

  datatype Song = Song(
    title: string,
    artist: string,
    youtubeUrl: string,
    youtubeId: string,
    thumbnail: string,
    duration: nat,
    rank: nat,
    genre: string,
    source: string,
    requestedBy: string,
    isManualRequest: bool,
    addedAt: nat,
    id: string)

  /** A record that only has a title, an artist and a genre. */
  function Bare(title: string, artist: string, genre: string): Song
  {
    Song(title, artist, "", "", "", 0, 0, genre, "", "", false, 0, "")
  }

  /** The watch page of a YouTube id. */
  const WatchPrefix: string := "https://www.youtube.com/watch?v="

  /** What searchYouTube returns for a query it can answer; its URL is always the watch page
      of its id. */
  datatype YouTubeHit = YouTubeHit(id: string, thumbnail: string, duration: nat)
  {
    function Url(): string
    {
      WatchPrefix + id
    }
  }

  /** searchYouTube: the external search, None when it finds nothing or fails. */
  type Resolver = string -> Option<YouTubeHit>

  /** The query text the bot searches for a song: `${title} ${artist}`. */
  function Query(song: Song): string
  {
    song.title + " " + song.artist
  }

  /** `s.youtube_url || s.youtube_id`: the song can be streamed without a search. */
  predicate HasSource(song: Song)
  {
    song.youtubeUrl != "" || song.youtubeId != ""
  }

  /** The four assignments that copy a search answer into a song: afterwards the song has a
      source, and its identity, rank and request flag are those it had. */
  function WithHit(song: Song, hit: YouTubeHit): (r: Song)
    ensures HasSource(r)
    ensures r.title == song.title && r.artist == song.artist && r.genre == song.genre && r.rank == song.rank
    ensures r.isManualRequest == song.isManualRequest && r.source == song.source
  {
    song.(youtubeUrl := hit.Url(), youtubeId := hit.id, thumbnail := hit.thumbnail, duration := hit.duration)
  }
}
