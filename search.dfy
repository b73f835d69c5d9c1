/** Match search on the destination service: one bounded query, and the first item it returns. */
module Search {
  import opened Wrappers
  import opened Schema

  /** The request `search_youtube_video` sends. */
  datatype SearchRequest = SearchRequest(q: string, part: string, maxResults: nat, kind: string, videoCategoryId: string)

  /** One item of a search response. */
  datatype VideoItem = VideoItem(videoId: string, title: string, channelTitle: string, defaultThumbnailUrl: string)

  /** What the search call produced: its items, or an exception. */
  datatype SearchResponse = Raised | Items(items: seq<VideoItem>)

  /** The query for a song: title and artist separated by one space, at most five videos of the music category. */
  function RequestFor(songName: string, artistName: string): (req: SearchRequest)
    ensures |req.q| == |songName| + 1 + |artistName|
    ensures req.q[..|songName|] == songName && req.q[|songName|] == ' ' && req.q[|songName| + 1..] == artistName
    ensures req.maxResults == 5 && req.kind == "video" && req.videoCategoryId == "10" && req.part == "id,snippet"
  {
    SearchRequest(songName + " " + artistName, "id,snippet", 5, "video", "10")
  }

  /** The match built from a search item: its video id, title, channel title and default thumbnail. */
  function MatchOf(v: VideoItem): (m: Match)
    ensures m.videoId == v.videoId && m.title == v.title
    ensures m.channel == v.channelTitle && m.thumbnail == v.defaultThumbnailUrl
  {
    Match(v.videoId, v.title, v.channelTitle, v.defaultThumbnailUrl)
  }

  /**
   * `search_youtube_video`: the first item of the response as a match, nothing when there are no items,
   * and nothing when the call raised.
   */
  function FirstMatch(response: SearchResponse): (r: Option<Match>)
    ensures r.Some? <==> response.Items? && response.items != []
    ensures r.Some? ==> r.value == MatchOf(response.items[0])
  {
    match response
    case Raised => None
    case Items(items) => if items == [] then None else Some(MatchOf(items[0]))
  }
}
