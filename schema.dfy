/** The rows of the four tables of the transfer database, and the views the read operations build from them. */
module Schema {
  import opened Wrappers

  /** One liked song as the library reader produces it and `store_songs` receives it. */
  datatype Song = Song(
    spotifyId: string,
    name: string,
    artist: string,        // artist names joined with ", "
    album: string,
    durationMs: int,
    externalUrl: string)

  /** The non-key columns of a `user_sessions` row; the key is the session id. Token blobs are opaque. */
  datatype SessionRow = SessionRow(
    spotifyToken: Option<string>,
    spotifyUserId: Option<string>,
    youtubeCredentials: Option<string>)

  /** A `songs` row: its auto-increment id, the owning session and the song's columns. */
  datatype SongRow = SongRow(id: nat, sessionId: string, song: Song)

  datatype TransferStatus = Pending | Processing | Completed

  /** A `transfers` row. */
  datatype TransferRow = TransferRow(
    id: nat,
    sessionId: string,
    playlistId: string,
    playlistName: string,
    totalSongs: nat,
    processed: nat,
    successful: nat,
    failed: nat,
    status: TransferStatus)

  /** The video chosen for a song: the four `youtube_*` columns of a ledger row. */
  datatype Match = Match(videoId: string, title: string, channel: string, thumbnail: string)

  datatype ResultStatus = Success | NotFound | AddFailed

  /** A `transfer_results` row. The four match columns are either all set or all NULL, so they are one optional match. */
  datatype ResultRow = ResultRow(
    id: nat,
    transferId: nat,
    songId: nat,
    youtube: Option<Match>,
    status: ResultStatus,
    addedToPlaylist: bool)

  /** The song part of a reported result. */
  datatype SongView = SongView(id: string, name: string, artist: string, album: string)

  /** One reported result, as `process_transfer` returns it and `get_transfer_results` reads it back. */
  datatype ResultView = ResultView(
    song: SongView,
    youtubeMatch: Option<Match>,
    status: ResultStatus,
    addedToPlaylist: bool)

  /** The song part of a result: the song's source id, title, artist and album; the row id is not shown. */
  function ViewOf(row: SongRow): (v: SongView)
    ensures v.id == row.song.spotifyId && v.name == row.song.name
    ensures v.artist == row.song.artist && v.album == row.song.album
  {
    SongView(row.song.spotifyId, row.song.name, row.song.artist, row.song.album)
  }

  /** The songs held by the rows, in row order. */
  function SongsIn(rows: seq<SongRow>): (r: seq<Song>)
    ensures |r| == |rows|
    ensures forall i :: 0 <= i < |rows| ==> r[i] == rows[i].song
  {
    if rows == [] then [] else SongsIn(rows[..|rows| - 1]) + [rows[|rows| - 1].song]
  }

  lemma SongsInAppend(rows: seq<SongRow>, row: SongRow)
    ensures SongsIn(rows + [row]) == SongsIn(rows) + [row.song]
  {
    assert (rows + [row])[..|rows|] == rows;
  }

  function SongSession(r: SongRow): string { r.sessionId }
  function TransferSession(r: TransferRow): string { r.sessionId }
  function ResultTransfer(r: ResultRow): nat { r.transferId }

  predicate SongBefore(a: SongRow, b: SongRow) { a.id < b.id }
  predicate TransferBefore(a: TransferRow, b: TransferRow) { a.id < b.id }
  predicate ResultBefore(a: ResultRow, b: ResultRow) { a.id < b.id }
}
