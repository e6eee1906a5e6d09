/**
 * Turning a `play` request's text into a track descriptor (play.js:36-73).
 *
 * The media libraries are oracles: `validateUrl` stands for ytdl.validateURL,
 * `getInfo` for ytdl.getInfo and `search` for yt-search. A `None` from
 * getInfo or search means that the call threw.
 */
module Songs {
  import opened Wrappers
  import Duration

  /** The track descriptor play.js builds (play.js:42-48, play.js:59-65). */
  datatype Song = Song(title: string, url: string, duration: string, thumbnail: string, requestedBy: string)

  /** The part of ytdl's videoDetails that play.js reads; `thumbnails` holds each thumbnail's url. */
  datatype VideoDetails = VideoDetails(title: string, videoUrl: string, lengthSeconds: nat, thumbnails: seq<string>)

  /** One video of a yt-search result. */
  datatype SearchVideo = SearchVideo(title: string, url: string, timestamp: string, thumbnail: string)

  datatype Resolver = Resolver(
    validateUrl: string -> bool,
    getInfo: string -> Option<VideoDetails>,
    search: string -> Option<seq<SearchVideo>>)

  /** How resolution ended: a track, an empty search, a search that threw, or a direct lookup that threw. */
  datatype Resolution = Found(song: Song) | NoMatch | SearchThrew | LookupThrew

  /** `args.join(' ')`. */
  function JoinArgs(args: seq<string>): string {
    if |args| == 0 then ""
    else if |args| == 1 then args[0]
    else args[0] + " " + JoinArgs(args[1..])
  }

  /**
   * A URL is looked up directly; its duration is printed by formatDuration and
   * its first thumbnail is used (an empty thumbnail list throws, as indexing
   * `thumbnails[0].url` does). Anything else goes through search and the first
   * hit is taken. Only the search path is guarded by a catch, so only it ends
   * in a reply; a failing direct lookup escapes the command.
   */
  function Resolve(query: string, requester: string, r: Resolver): (res: Resolution)
    ensures res.Found? ==> res.song.requestedBy == requester
    ensures res.LookupThrew? <==>
      r.validateUrl(query) && (r.getInfo(query).None? || r.getInfo(query).value.thumbnails == [])
    ensures res.NoMatch? <==> !r.validateUrl(query) && r.search(query) == Some([])
    ensures res.SearchThrew? <==> !r.validateUrl(query) && r.search(query).None?
    ensures res.Found? && r.validateUrl(query) ==>
      && r.getInfo(query).Some?
      && res.song.url == r.getInfo(query).value.videoUrl
      && Duration.ParseDuration(res.song.duration) == Some(r.getInfo(query).value.lengthSeconds)
    ensures res.Found? && !r.validateUrl(query) ==>
      && r.search(query).Some? && r.search(query).value != []
      && res.song.url == r.search(query).value[0].url
  {
    if r.validateUrl(query) then
      match r.getInfo(query)
      case None => LookupThrew
      case Some(details) =>
        if details.thumbnails == [] then LookupThrew
        else
          Duration.FormatDurationRoundTrip(details.lengthSeconds);
          Found(Song(details.title, details.videoUrl, Duration.FormatDuration(details.lengthSeconds),
                     details.thumbnails[0], requester))
    else
      match r.search(query)
      case None => SearchThrew
      case Some(videos) =>
        if videos == [] then NoMatch
        else
          var video := videos[0];
          Found(Song(video.title, video.url, video.timestamp, video.thumbnail, requester))
  }
}
