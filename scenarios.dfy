/**
 * Runs of the engine from a fresh database. The songs, the search and the playlist are arbitrary.
 */
module Scenarios {
  import opened Wrappers
  import opened Schema
  import opened Tables
  import opened Search
  import opened Persistence
  import opened Engine

  /** The session's stored songs are `list`. */
  ghost predicate Holds(db: DatabaseManager, sessionId: string, list: seq<Song>)
    reads db
  {
    db.Valid() && db.SongsOf(sessionId) == list && |db.GetSongs(sessionId)| == |list|
  }

  /** The session's stored songs are `list` and its transfer t is the database's only transfer. */
  ghost predicate At(db: DatabaseManager, sessionId: string, list: seq<Song>, t: TransferRow)
    reads db
  {
    Holds(db, sessionId, list) && db.transfers == [t] && t.sessionId == sessionId && t.totalSongs == |list|
  }

  /**
   * A fresh database after the songs are stored and a transfer of them to the playlist is started.
   * Starting is refused before any transfer is created when the snapshot is empty (app.py:703-705).
   */
  method Start(sessionId: string, playlistId: string, list: seq<Song>) returns (db: DatabaseManager)
    requires list != []
    ensures fresh(db) && At(db, sessionId, list, TransferRow(1, sessionId, playlistId, "Liked Songs", |list|, 0, 0, 0, Pending))
    ensures db.results == [] && forall r :: r in db.songs ==> r.sessionId == sessionId
  {
    db := new DatabaseManager();
    db.StoreSongs(sessionId, list);
    forall r | r in db.songs ensures r.sessionId == sessionId {
      assert r in db.GetSongs(r.sessionId);
    }
    var id := db.CreateTransfer(sessionId, playlistId, "Liked Songs", |list|);
  }

  /**
   * A transfer of a one-song snapshot: the first poll processes the song and completes the transfer,
   * after which the session has no active transfer, so the next poll is refused as not initialized
   * rather than as all songs processed.
   */
  method OneSongRun(sessionId: string, playlistId: string, song: Song,
                    search: SearchRequest -> SearchResponse, append: (string, string) -> bool)
    returns (first: Result<StepReply, StepError>, second: Result<StepReply, StepError>)
    ensures first.Ok? && first.value.completed && first.value.progress.current == 1 && first.value.progress.total == 1
    ensures first.value.progress.successful + first.value.progress.failed == 1
    ensures first.value.result.status == Outcome(FirstMatch(search(RequestFor(song.name, song.artist))), playlistId, append).0
    ensures second == Err(TransferNotInitialized)
  {
    var db := Start(sessionId, playlistId, [song]);
    assert LastActive(db.transfers, sessionId) == Some(0);
    first := ProcessTransfer(db, sessionId, search, append);
    assert db.GetActiveTransfer(sessionId).None?;
    second := ProcessTransfer(db, sessionId, search, append);
  }

  /** A database after one song of a one-song snapshot has been processed: one ledger row, read back. */
  method RunOneSong(sessionId: string, playlistId: string, song: Song,
                    search: SearchRequest -> SearchResponse, append: (string, string) -> bool)
    returns (db: DatabaseManager)
    ensures fresh(db) && db.Valid()
    ensures |db.results| == 1 && |db.GetTransferResults(1)| == 1
    ensures forall r :: r in db.songs ==> r.sessionId == sessionId
  {
    db := Start(sessionId, playlistId, [song]);
    assert LastActive(db.transfers, sessionId) == Some(0);
    var reply := ProcessTransfer(db, sessionId, search, append);
  }

  /**
   * Disconnecting the source service after a run deletes the session's songs, so the run's ledger row,
   * which is kept, no longer reads back: the inner join finds no song for it.
   */
  method DisconnectAfterRun(sessionId: string, playlistId: string, song: Song,
                            search: SearchRequest -> SearchResponse, append: (string, string) -> bool)
    returns (before: seq<ResultView>, after: seq<ResultView>, ledgerRows: nat)
    ensures |before| == 1 && after == [] && ledgerRows == 1
  {
    var db := RunOneSong(sessionId, playlistId, song, search, append);
    before := db.GetTransferResults(1);
    FilterNone(db.songs, SongSession, {sessionId}, false);
    db.DisconnectService(sessionId, "spotify");
    after := db.GetTransferResults(1);
    ledgerRows := |db.results|;
  }
}
