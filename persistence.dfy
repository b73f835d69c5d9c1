/**
 * The persistence layer: the four tables `user_sessions`, `songs`, `transfers` and `transfer_results`
 * held in memory, with the auto-increment counters SQLite keeps for the last three.
 */
module Persistence {
  import opened Wrappers
  import opened Schema
  import opened Tables

  /** A non-completed transfer of the session: what `get_active_transfer` may return. */
  predicate IsActive(t: TransferRow, sessionId: string)
  {
    t.sessionId == sessionId && t.status != Completed
  }

  /** The position of the last active transfer of the session in table order, if there is one. */
  function LastActive(ts: seq<TransferRow>, sessionId: string): (r: Option<nat>)
    ensures r.Some? ==> r.value < |ts| && IsActive(ts[r.value], sessionId)
                        && forall j :: r.value < j < |ts| ==> !IsActive(ts[j], sessionId)
    ensures r.None? <==> forall j :: 0 <= j < |ts| ==> !IsActive(ts[j], sessionId)
  {
    if ts == [] then None
    else if IsActive(ts[|ts| - 1], sessionId) then Some(|ts| - 1)
    else LastActive(ts[..|ts| - 1], sessionId)
  }

  /** Two positions that both satisfy the contract of LastActive are the same position. */
  lemma LastActiveIsUnique(ts: seq<TransferRow>, sessionId: string, k: nat)
    requires k < |ts| && IsActive(ts[k], sessionId)
    requires forall j :: k < j < |ts| ==> !IsActive(ts[j], sessionId)
    ensures LastActive(ts, sessionId) == Some(k)
  {
  }

  /**
   * A transfer that stops being active hands the role to the last active transfer before it:
   * with no such transfer, the session has no active transfer any more.
   */
  lemma {:induction false} LastActiveAfterCompletion(ts: seq<TransferRow>, sessionId: string, k: nat, u: TransferRow)
    requires LastActive(ts, sessionId) == Some(k)
    requires !IsActive(u, sessionId)
    ensures LastActive(ts[k := u], sessionId) == LastActive(ts[..k], sessionId)
  {
    var ts' := ts[k := u];
    assert ts'[..k] == ts[..k];
    match LastActive(ts[..k], sessionId)
    case None =>
      assert forall j :: 0 <= j < |ts'| ==> !IsActive(ts'[j], sessionId) by {
        forall j | 0 <= j < |ts'| ensures !IsActive(ts'[j], sessionId) {
          if j < k { assert ts'[j] == ts[..k][j]; }
        }
      }
    case Some(i) =>
      forall j | i < j < |ts'| ensures !IsActive(ts'[j], sessionId) {
        if j < k { assert ts'[j] == ts[..k][j]; }
      }
      assert ts'[i] == ts[..k][i];
      LastActiveIsUnique(ts', sessionId, i);
  }

  /** The ids of the given transfers. */
  function TransferIds(ts: seq<TransferRow>): set<nat>
  {
    set t | t in ts :: t.id
  }

  /** The ids of the session's transfers: the sub-select of `clear_session_data`. */
  function SessionTransferIds(ts: seq<TransferRow>, sessionId: string): set<nat>
  {
    set t | t in ts && t.sessionId == sessionId :: t.id
  }

  /**
   * The ledger invariant of the transfer engine: every transfer has processed exactly as many songs as
   * it has ledger rows, each of them either a success or a failure, and every ledger row belongs to a
   * transfer that exists.
   */
  ghost predicate LedgerConsistent(ts: seq<TransferRow>, rs: seq<ResultRow>)
  {
    && (forall t :: t in ts ==> t.processed == t.successful + t.failed && |Select(rs, ResultTransfer, t.id)| == t.processed)
    && (forall r :: r in rs ==> r.transferId in TransferIds(ts))
  }

  /** A new transfer with zero counters and an unused id keeps the ledger consistent. */
  lemma CreateKeepsLedger(ts: seq<TransferRow>, rs: seq<ResultRow>, t: TransferRow)
    requires LedgerConsistent(ts, rs)
    requires t.id !in TransferIds(ts)
    requires t.processed == 0 && t.successful == 0 && t.failed == 0
    ensures LedgerConsistent(ts + [t], rs)
  {
    FilterNone(rs, ResultTransfer, {t.id}, true);
    forall u | u in ts + [t] ensures u.processed == u.successful + u.failed
                                 && |Select(rs, ResultTransfer, u.id)| == u.processed {
      if u != t { assert u in ts; }
    }
    assert TransferIds(ts + [t]) == TransferIds(ts) + {t.id};
  }

  /**
   * One step of the engine keeps the ledger consistent: it appends one ledger row for transfer ts[k]
   * and replaces that transfer by u, with one more processed song and one more success or failure.
   */
  lemma StepKeepsLedger(ts: seq<TransferRow>, rs: seq<ResultRow>, k: nat, u: TransferRow, row: ResultRow)
    requires LedgerConsistent(ts, rs)
    requires Pairwise(ts, TransferBefore)
    requires k < |ts| && u.id == ts[k].id && row.transferId == ts[k].id
    requires u.processed == ts[k].processed + 1
    requires u.successful + u.failed == ts[k].successful + ts[k].failed + 1
    ensures LedgerConsistent(ts[k := u], rs + [row])
  {
    var ts', rs' := ts[k := u], rs + [row];
    forall w | w in ts' ensures w.processed == w.successful + w.failed
                             && |Select(rs', ResultTransfer, w.id)| == w.processed {
      var j :| 0 <= j < |ts'| && ts'[j] == w;
      FilterAppend(rs, row, ResultTransfer, {w.id}, true);
      if j != k {
        assert ts[j] == w && ts[j].id != ts[k].id by {
          if j < k { assert TransferBefore(ts[j], ts[k]); } else { assert TransferBefore(ts[k], ts[j]); }
        }
      }
    }
    ReplaceKeepsIds(ts, k, u);
    assert ts'[k] == u && u.id in TransferIds(ts');
  }

  /** Replacing a transfer by one with the same id leaves the set of ids as it was. */
  lemma ReplaceKeepsIds(ts: seq<TransferRow>, k: nat, u: TransferRow)
    requires k < |ts| && u.id == ts[k].id
    ensures TransferIds(ts[k := u]) == TransferIds(ts)
  {
    var ts' := ts[k := u];
    forall x | x in TransferIds(ts) ensures x in TransferIds(ts') {
      var t :| t in ts && t.id == x;
      var j :| 0 <= j < |ts| && ts[j] == t;
      if j == k { assert ts'[k] == u && u in ts'; } else { assert ts'[j] == t; }
    }
    forall x | x in TransferIds(ts') ensures x in TransferIds(ts) {
      var t :| t in ts' && t.id == x;
      var j :| 0 <= j < |ts'| && ts'[j] == t;
      if j == k { assert ts[k] in ts; } else { assert ts[j] == t; }
    }
  }

  /** Deleting a session's transfers together with their ledger rows keeps the ledger consistent. */
  lemma ClearKeepsLedger(ts: seq<TransferRow>, rs: seq<ResultRow>, sessionId: string)
    requires LedgerConsistent(ts, rs)
    requires Pairwise(ts, TransferBefore)
    ensures LedgerConsistent(Filter(ts, TransferSession, {sessionId}, false),
                             Filter(rs, ResultTransfer, SessionTransferIds(ts, sessionId), false))
  {
    var gone := SessionTransferIds(ts, sessionId);
    var ts', rs' := Filter(ts, TransferSession, {sessionId}, false), Filter(rs, ResultTransfer, gone, false);
    forall w | w in ts' ensures w.processed == w.successful + w.failed
                             && |Select(rs', ResultTransfer, w.id)| == w.processed {
      forall v | v in ts && v.sessionId == sessionId ensures v.id != w.id {
        var i :| 0 <= i < |ts| && ts[i] == v;
        var j :| 0 <= j < |ts| && ts[j] == w;
        assert i != j;
        if i < j { assert TransferBefore(ts[i], ts[j]); } else { assert TransferBefore(ts[j], ts[i]); }
      }
      assert w.id !in gone;
      SelectAfterDelete(rs, ResultTransfer, gone, {w.id});
    }
    forall r | r in rs' ensures r.transferId in TransferIds(ts') {
      var t :| t in ts && t.id == r.transferId;
      assert t.sessionId != sessionId;
      assert t in ts';
    }
  }

  /** A match as `get_transfer_results` reads it back: a NULL or empty video id reads as no match. */
  function StoredMatch(youtube: Option<Match>): (r: Option<Match>)
    ensures r.Some? <==> youtube.Some? && youtube.value.videoId != ""
    ensures r.Some? ==> r == youtube
  {
    match youtube
    case Some(m) => if m.videoId != "" then youtube else None
    case None => None
  }

  /** The first song row with the given id: the row the join on `songs.id` finds. */
  function FindSong(rows: seq<SongRow>, id: nat): (r: Option<SongRow>)
    ensures r.Some? ==> r.value in rows && r.value.id == id
    ensures r.None? <==> forall s :: s in rows ==> s.id != id
  {
    if rows == [] then None
    else if rows[0].id == id then Some(rows[0])
    else FindSong(rows[1..], id)
  }

  /** With unique ids the join finds exactly the row that has the id. */
  lemma {:induction false} FindSongUnique(rows: seq<SongRow>, s: SongRow)
    requires Pairwise(rows, SongBefore)
    requires s in rows
    ensures FindSong(rows, s.id) == Some(s)
  {
    if rows[0] != s {
      assert s in rows[1..];
      var j :| 0 <= j < |rows| && rows[j] == s;
      assert j != 0 && SongBefore(rows[0], rows[j]);
      assert Pairwise(rows[1..], SongBefore);
      FindSongUnique(rows[1..], s);
    }
  }

  /** The result rows joined with their songs, in ledger order; a row whose song is gone drops out. */
  function Joined(rs: seq<ResultRow>, songs: seq<SongRow>): (r: seq<ResultView>)
    ensures |r| <= |rs|
  {
    if rs == [] then []
    else
      var last := rs[|rs| - 1];
      Joined(rs[..|rs| - 1], songs)
        + match FindSong(songs, last.songId)
          case Some(s) => [ResultView(ViewOf(s), StoredMatch(last.youtube), last.status, last.addedToPlaylist)]
          case None => []
  }

  /** A ledger row appended for a song that exists reads back as one more view at the end. */
  lemma JoinedAppendFound(rs: seq<ResultRow>, row: ResultRow, songs: seq<SongRow>, s: SongRow)
    requires FindSong(songs, row.songId) == Some(s)
    ensures Joined(rs + [row], songs)
         == Joined(rs, songs) + [ResultView(ViewOf(s), StoredMatch(row.youtube), row.status, row.addedToPlaylist)]
  {
    assert (rs + [row])[..|rs|] == rs;
  }

  /** A ledger row whose song has been deleted does not appear in what is read back. */
  lemma JoinedAppendMissing(rs: seq<ResultRow>, row: ResultRow, songs: seq<SongRow>)
    requires forall s :: s in songs ==> s.id != row.songId
    ensures Joined(rs + [row], songs) == Joined(rs, songs)
  {
    assert (rs + [row])[..|rs|] == rs;
  }

  /** When every ledger row's song still exists, every ledger row is read back. */
  lemma {:induction false} JoinedAllFound(rs: seq<ResultRow>, songs: seq<SongRow>)
    requires forall r :: r in rs ==> FindSong(songs, r.songId).Some?
    ensures |Joined(rs, songs)| == |rs|
  {
    if rs != [] {
      assert forall r :: r in rs[..|rs| - 1] ==> r in rs;
      JoinedAllFound(rs[..|rs| - 1], songs);
    }
  }

  /** When no song is left, nothing is read back, whatever the ledger holds. */
  lemma {:induction false} JoinedNoSongs(rs: seq<ResultRow>)
    ensures Joined(rs, []) == []
  {
    if rs != [] {
      JoinedNoSongs(rs[..|rs| - 1]);
    }
  }

  /** The columns `update_transfer_progress` sets: those given, the others unchanged. */
  function Patch(t: TransferRow, processed: Option<nat>, successful: Option<nat>,
                 failed: Option<nat>, status: Option<TransferStatus>): (u: TransferRow)
    ensures u.id == t.id && u.sessionId == t.sessionId && u.playlistId == t.playlistId
    ensures u.playlistName == t.playlistName && u.totalSongs == t.totalSongs
    ensures u.processed == (if processed.Some? then processed.value else t.processed)
    ensures u.successful == (if successful.Some? then successful.value else t.successful)
    ensures u.failed == (if failed.Some? then failed.value else t.failed)
    ensures u.status == (if status.Some? then status.value else t.status)
  {
    var t1 := if processed.Some? then t.(processed := processed.value) else t;
    var t2 := if successful.Some? then t1.(successful := successful.value) else t1;
    var t3 := if failed.Some? then t2.(failed := failed.value) else t2;
    if status.Some? then t3.(status := status.value) else t3
  }

  /**
   * Appending a song row for a session adds it last to that session's songs and to no other session's:
   * the fact about one INSERT of the store loop on its own; `ReplaceSnapshot` states the whole loop.
   */
  lemma InsertSong(rows: seq<SongRow>, row: SongRow)
    ensures Select(rows + [row], SongSession, row.sessionId) == Select(rows, SongSession, row.sessionId) + [row]
    ensures SongsIn(Select(rows + [row], SongSession, row.sessionId))
         == SongsIn(Select(rows, SongSession, row.sessionId)) + [row.song]
    ensures forall s :: s != row.sessionId ==> Select(rows + [row], SongSession, s) == Select(rows, SongSession, s)
  {
    FilterAppend(rows, row, SongSession, {row.sessionId}, true);
    SongsInAppend(Select(rows, SongSession, row.sessionId), row);
    forall s | s != row.sessionId ensures Select(rows + [row], SongSession, s) == Select(rows, SongSession, s) {
      FilterAppend(rows, row, SongSession, {s}, true);
    }
  }

  /** Song ids increase along the table and stay below the next id to hand out. */
  ghost predicate SongTable(rows: seq<SongRow>, next: nat)
  {
    Pairwise(rows, SongBefore) && forall r :: r in rows ==> r.id < next
  }

  ghost predicate TransferTable(rows: seq<TransferRow>, next: nat)
  {
    Pairwise(rows, TransferBefore) && forall r :: r in rows ==> r.id < next
  }

  ghost predicate ResultTable(rows: seq<ResultRow>, next: nat)
  {
    Pairwise(rows, ResultBefore) && forall r :: r in rows ==> r.id < next
  }

  /** Deleting rows keeps each table's ids increasing and below the next id. */
  lemma DeleteKeepsTables(songs: seq<SongRow>, nextSong: nat, ts: seq<TransferRow>, nextTransfer: nat,
                          rs: seq<ResultRow>, nextResult: nat, sessionId: string, gone: set<nat>)
    requires SongTable(songs, nextSong) && TransferTable(ts, nextTransfer) && ResultTable(rs, nextResult)
    ensures SongTable(Filter(songs, SongSession, {sessionId}, false), nextSong)
    ensures TransferTable(Filter(ts, TransferSession, {sessionId}, false), nextTransfer)
    ensures ResultTable(Filter(rs, ResultTransfer, gone, false), nextResult)
  {
    FilterPairwise(songs, SongSession, {sessionId}, false, SongBefore);
    FilterPairwise(ts, TransferSession, {sessionId}, false, TransferBefore);
    FilterPairwise(rs, ResultTransfer, gone, false, ResultBefore);
  }

  /**
   * Deleting a session's song rows and appending fresh rows for it, with ids counted up from the next
   * free id, leaves ids increasing, makes the fresh rows the session's songs and leaves every other
   * session's songs as they were.
   */
  lemma ReplaceSnapshot(rows: seq<SongRow>, next: nat, sessionId: string, added: seq<SongRow>)
    requires Pairwise(rows, SongBefore) && forall r :: r in rows ==> r.id < next
    requires forall j :: 0 <= j < |added| ==> added[j].id == next + j && added[j].sessionId == sessionId
    ensures var after := Filter(rows, SongSession, {sessionId}, false) + added;
      && Pairwise(after, SongBefore) && (forall r :: r in after ==> r.id < next + |added|)
      && Select(after, SongSession, sessionId) == added
      && forall s :: s != sessionId ==> Select(after, SongSession, s) == Select(rows, SongSession, s)
  {
    var kept := Filter(rows, SongSession, {sessionId}, false);
    var after := kept + added;
    FilterPairwise(rows, SongSession, {sessionId}, false, SongBefore);
    forall i, j | 0 <= i < j < |after| ensures SongBefore(after[i], after[j]) {
      if j < |kept| {
        assert after[i] == kept[i] && after[j] == kept[j];
      } else if i < |kept| {
        assert after[i] == kept[i] && kept[i] in kept;
      }
    }
    FilterConcat(kept, added, SongSession, {sessionId}, true);
    SelectDeleted(rows, SongSession, {sessionId}, {sessionId});
    FilterAll(added, SongSession, {sessionId}, true);
    forall s | s != sessionId ensures Select(after, SongSession, s) == Select(rows, SongSession, s) {
      FilterConcat(kept, added, SongSession, {s}, true);
      SelectAfterDelete(rows, SongSession, {sessionId}, {s});
      FilterNone(added, SongSession, {s}, true);
    }
  }

  /**
   * Deleting a session's ledger rows, transfers and songs keeps every table's ids in order, leaves the
   * session with no songs and no active transfer, leaves every other session's songs as they were and
   * keeps the ledger consistent.
   */
  lemma ClearSession(songs: seq<SongRow>, nextSong: nat, ts: seq<TransferRow>, nextTransfer: nat,
                     rs: seq<ResultRow>, nextResult: nat, sessionId: string,
                     songs': seq<SongRow>, ts': seq<TransferRow>, rs': seq<ResultRow>)
    requires SongTable(songs, nextSong) && TransferTable(ts, nextTransfer) && ResultTable(rs, nextResult)
    requires songs' == Filter(songs, SongSession, {sessionId}, false)
    requires ts' == Filter(ts, TransferSession, {sessionId}, false)
    requires rs' == Filter(rs, ResultTransfer, SessionTransferIds(ts, sessionId), false)
    ensures SongTable(songs', nextSong) && TransferTable(ts', nextTransfer) && ResultTable(rs', nextResult)
    ensures Select(songs', SongSession, sessionId) == []
    ensures forall s :: s != sessionId ==> Select(songs', SongSession, s) == Select(songs, SongSession, s)
    ensures LastActive(ts', sessionId).None?
    ensures LedgerConsistent(ts, rs) ==> LedgerConsistent(ts', rs')
  {
    if LedgerConsistent(ts, rs) { ClearKeepsLedger(ts, rs, sessionId); }
    DeleteKeepsTables(songs, nextSong, ts, nextTransfer, rs, nextResult, sessionId, SessionTransferIds(ts, sessionId));
    SelectDeleted(songs, SongSession, {sessionId}, {sessionId});
    forall s | s != sessionId ensures Select(songs', SongSession, s) == Select(songs, SongSession, s) {
      SelectAfterDelete(songs, SongSession, {sessionId}, {s});
    }
    assert forall t :: t in ts' ==> !IsActive(t, sessionId);
  }

  class DatabaseManager {
    var sessions: map<string, SessionRow>
    var songs: seq<SongRow>
    var transfers: seq<TransferRow>
    var results: seq<ResultRow>
    var nextSongId: nat
    var nextTransferId: nat
    var nextResultId: nat

    /** Ids are handed out in increasing order and never reused, so table order is id order. */
    ghost predicate Valid()
      reads this
    {
      SongTable(songs, nextSongId) && TransferTable(transfers, nextTransferId) && ResultTable(results, nextResultId)
    }

    /** The ledger invariant over the current tables. */
    ghost predicate Consistent()
      reads this
    {
      LedgerConsistent(transfers, results)
    }

    /** An empty database, as `init_database` leaves a fresh file. */
    constructor ()
      ensures Valid() && Consistent()
      ensures sessions == map[] && songs == [] && transfers == [] && results == []
      ensures nextSongId == 1 && nextTransferId == 1 && nextResultId == 1
    {
      sessions, songs, transfers, results := map[], [], [], [];
      nextSongId, nextTransferId, nextResultId := 1, 1, 1;
    }

    /** `get_or_create_session`: the session's row, inserted with NULL credentials if it is new. */
    method GetOrCreateSession(sessionId: string) returns (row: SessionRow)
      requires Valid()
      modifies this
      ensures Valid()
      ensures sessionId in sessions && row == sessions[sessionId]
      ensures sessionId in old(sessions) ==> sessions == old(sessions)
      ensures sessionId !in old(sessions) ==> sessions == old(sessions)[sessionId := SessionRow(None, None, None)]
      ensures songs == old(songs) && transfers == old(transfers) && results == old(results)
      ensures nextSongId == old(nextSongId) && nextTransferId == old(nextTransferId) && nextResultId == old(nextResultId)
    {
      if sessionId !in sessions {
        sessions := sessions[sessionId := SessionRow(None, None, None)];
      }
      row := sessions[sessionId];
    }

    /** `update_spotify_token`: sets the token blob and user id of an existing session row. */
    method UpdateSpotifyToken(sessionId: string, token: string, userId: Option<string>)
      requires Valid()
      modifies this`sessions
      ensures Valid()
      ensures sessionId in old(sessions) ==>
        sessions == old(sessions)[sessionId := old(sessions)[sessionId].(spotifyToken := Some(token), spotifyUserId := userId)]
      ensures sessionId !in old(sessions) ==> sessions == old(sessions)
    {
      if sessionId in sessions {
        sessions := sessions[sessionId := sessions[sessionId].(spotifyToken := Some(token), spotifyUserId := userId)];
      }
    }

    /** `update_youtube_credentials`: sets the credentials blob of an existing session row. */
    method UpdateYoutubeCredentials(sessionId: string, credentials: string)
      requires Valid()
      modifies this`sessions
      ensures Valid()
      ensures sessionId in old(sessions) ==>
        sessions == old(sessions)[sessionId := old(sessions)[sessionId].(youtubeCredentials := Some(credentials))]
      ensures sessionId !in old(sessions) ==> sessions == old(sessions)
    {
      if sessionId in sessions {
        sessions := sessions[sessionId := sessions[sessionId].(youtubeCredentials := Some(credentials))];
      }
    }

    /** `get_spotify_token`: the stored blob, or nothing when the row is missing or the column is NULL or empty. */
    function GetSpotifyToken(sessionId: string): (r: Option<string>)
      reads this
      ensures r.Some? <==> sessionId in sessions && sessions[sessionId].spotifyToken.Some?
                           && sessions[sessionId].spotifyToken.value != ""
      ensures r.Some? ==> r.value == sessions[sessionId].spotifyToken.value
    {
      if sessionId in sessions && sessions[sessionId].spotifyToken.Some? && sessions[sessionId].spotifyToken.value != ""
      then sessions[sessionId].spotifyToken
      else None
    }

    /** `get_youtube_credentials`: the stored blob, or nothing when the row is missing or the column is NULL or empty. */
    function GetYoutubeCredentials(sessionId: string): (r: Option<string>)
      reads this
      ensures r.Some? <==> sessionId in sessions && sessions[sessionId].youtubeCredentials.Some?
                           && sessions[sessionId].youtubeCredentials.value != ""
      ensures r.Some? ==> r.value == sessions[sessionId].youtubeCredentials.value
    {
      if sessionId in sessions && sessions[sessionId].youtubeCredentials.Some? && sessions[sessionId].youtubeCredentials.value != ""
      then sessions[sessionId].youtubeCredentials
      else None
    }

    /** `get_songs`: the session's song rows, in id order (the order they were stored). */
    function GetSongs(sessionId: string): (r: seq<SongRow>)
      reads this
      ensures forall s :: s in r <==> s in songs && s.sessionId == sessionId
      ensures Valid() ==> Pairwise(r, SongBefore)
    {
      assert Valid() ==> Pairwise(Select(songs, SongSession, sessionId), SongBefore) by {
        if Valid() { FilterPairwise(songs, SongSession, {sessionId}, true, SongBefore); }
      }
      Select(songs, SongSession, sessionId)
    }

    /** The songs of a session as they were stored, without their row ids. */
    function SongsOf(sessionId: string): seq<Song>
      reads this
    {
      SongsIn(GetSongs(sessionId))
    }

    /**
     * `store_songs`: deletes the session's songs, then inserts the given ones in order with fresh ids.
     * The session's snapshot becomes exactly the given list; every other session's songs are untouched.
     */
    method StoreSongs(sessionId: string, list: seq<Song>)
      requires Valid()
      modifies this`songs, this`nextSongId
      ensures Valid()
      ensures SongsOf(sessionId) == list
      ensures forall s :: s != sessionId ==> GetSongs(s) == old(GetSongs(s))
      ensures forall r :: r in GetSongs(sessionId) ==> old(nextSongId) <= r.id < nextSongId
      ensures nextSongId == old(nextSongId) + |list|
    {
      var kept := Filter(songs, SongSession, {sessionId}, false);
      var rows, next := kept, nextSongId;
      ghost var inserted: seq<SongRow> := [];
      var i := 0;
      while i < |list|
        invariant 0 <= i <= |list|
        invariant next == nextSongId + i
        invariant rows == kept + inserted
        invariant |inserted| == i
        invariant forall j :: 0 <= j < i ==> inserted[j] == SongRow(nextSongId + j, sessionId, list[j])
      {
        var row := SongRow(next, sessionId, list[i]);
        rows := rows + [row];
        inserted := inserted + [row];
        next := next + 1;
        i := i + 1;
      }
      ReplaceSnapshot(songs, nextSongId, sessionId, inserted);
      assert SongTable(rows, next);
      assert SongsIn(inserted) == list;
      songs, nextSongId := rows, next;
    }

    /** `create_transfer`: inserts a pending transfer with zero counters and returns its new id. */
    method CreateTransfer(sessionId: string, playlistId: string, playlistName: string, totalSongs: nat)
      returns (id: nat)
      requires Valid()
      modifies this`transfers, this`nextTransferId
      ensures Valid()
      ensures id == old(nextTransferId) && id !in TransferIds(old(transfers))
      ensures transfers == old(transfers) + [TransferRow(id, sessionId, playlistId, playlistName, totalSongs, 0, 0, 0, Pending)]
      ensures nextTransferId == id + 1
      ensures GetActiveTransfer(sessionId) == Some(transfers[|transfers| - 1])
      ensures old(Consistent()) ==> Consistent()
    {
      id := nextTransferId;
      var t := TransferRow(id, sessionId, playlistId, playlistName, totalSongs, 0, 0, 0, Pending);
      if old(Consistent()) {
        CreateKeepsLedger(transfers, results, t);
      }
      PairwiseAppend(transfers, t, TransferBefore);
      transfers := transfers + [t];
      nextTransferId := nextTransferId + 1;
    }

    /**
     * `get_active_transfer`: the most recently created transfer of the session that is not completed.
     * Recency is creation order, which is id order.
     */
    function GetActiveTransfer(sessionId: string): (r: Option<TransferRow>)
      reads this
      ensures r.Some? ==> r.value in transfers && IsActive(r.value, sessionId)
      ensures r.None? <==> forall t :: t in transfers ==> !IsActive(t, sessionId)
      ensures r.Some? && Valid() ==> forall t :: t in transfers && IsActive(t, sessionId) ==> t.id <= r.value.id
    {
      match LastActive(transfers, sessionId)
      case None => None
      case Some(k) =>
        assert forall t :: t in transfers && IsActive(t, sessionId) && Valid() ==> t.id <= transfers[k].id by {
          forall t | t in transfers && IsActive(t, sessionId) && Valid() ensures t.id <= transfers[k].id {
            var j :| 0 <= j < |transfers| && transfers[j] == t;
            if j < k { assert TransferBefore(transfers[j], transfers[k]); }
          }
        }
        Some(transfers[k])
    }

    /**
     * `update_transfer_progress`: sets the given columns of the transfer with that id; with no
     * column given nothing is written.
     */
    method UpdateTransferProgress(transferId: nat, processed: Option<nat>, successful: Option<nat>,
                                  failed: Option<nat>, status: Option<TransferStatus>)
      requires Valid()
      modifies this`transfers
      ensures Valid()
      ensures |transfers| == |old(transfers)|
      ensures forall i :: 0 <= i < |transfers| ==>
        transfers[i] == if old(transfers[i]).id == transferId then Patch(old(transfers[i]), processed, successful, failed, status)
                        else old(transfers[i])
    {
      if processed.Some? || successful.Some? || failed.Some? || status.Some? {
        transfers := seq(|transfers|, i requires 0 <= i < |transfers| reads this =>
          if transfers[i].id == transferId then Patch(transfers[i], processed, successful, failed, status)
          else transfers[i]);
      }
    }

    /** `add_transfer_result`: appends one ledger row with a fresh id; a missing match leaves the match columns NULL. */
    method AddTransferResult(transferId: nat, songDbId: nat, youtube: Option<Match>, status: ResultStatus, added: bool)
      requires Valid()
      modifies this`results, this`nextResultId
      ensures Valid()
      ensures results == old(results) + [ResultRow(old(nextResultId), transferId, songDbId, youtube, status, added)]
      ensures nextResultId == old(nextResultId) + 1
    {
      var row := ResultRow(nextResultId, transferId, songDbId, youtube, status, added);
      PairwiseAppend(results, row, ResultBefore);
      results := results + [row];
      nextResultId := nextResultId + 1;
    }

    /**
     * `get_transfer_results`: the transfer's ledger in insertion order, each row joined with its song.
     * It is an inner join, so a row whose song has been deleted is not returned.
     */
    function GetTransferResults(transferId: nat): (r: seq<ResultView>)
      reads this
      ensures |r| <= |Select(results, ResultTransfer, transferId)|
      ensures (forall x :: x in results && x.transferId == transferId ==> FindSong(songs, x.songId).Some?)
              ==> |r| == |Select(results, ResultTransfer, transferId)|
      ensures songs == [] ==> r == []
    {
      var ledger := Select(results, ResultTransfer, transferId);
      assert (forall x :: x in results && x.transferId == transferId ==> FindSong(songs, x.songId).Some?)
             ==> |Joined(ledger, songs)| == |ledger| by {
        if forall x :: x in results && x.transferId == transferId ==> FindSong(songs, x.songId).Some? {
          JoinedAllFound(ledger, songs);
        }
      }
      JoinedNoSongs(ledger);
      Joined(ledger, songs)
    }

    /**
     * `disconnect_service`: for "spotify" clears the token and user id and deletes the session's songs;
     * for "youtube" clears the credentials; for any other name changes nothing. Transfers and the
     * ledger are never touched.
     */
    method DisconnectService(sessionId: string, service: string)
      requires Valid()
      modifies this`sessions, this`songs
      ensures Valid()
      ensures service == "spotify" ==>
        && sessions == (if sessionId in old(sessions)
                        then old(sessions)[sessionId := old(sessions)[sessionId].(spotifyToken := None, spotifyUserId := None)]
                        else old(sessions))
        && songs == Filter(old(songs), SongSession, {sessionId}, false)
        && GetSongs(sessionId) == []
        && GetSpotifyToken(sessionId).None?
        && forall s :: s != sessionId ==> GetSongs(s) == old(GetSongs(s))
      ensures service == "youtube" ==>
        && sessions == (if sessionId in old(sessions)
                        then old(sessions)[sessionId := old(sessions)[sessionId].(youtubeCredentials := None)]
                        else old(sessions))
        && songs == old(songs)
        && GetYoutubeCredentials(sessionId).None?
      ensures service != "spotify" && service != "youtube" ==> sessions == old(sessions) && songs == old(songs)
    {
      if service == "spotify" {
        if sessionId in sessions {
          sessions := sessions[sessionId := sessions[sessionId].(spotifyToken := None, spotifyUserId := None)];
        }
        FilterPairwise(songs, SongSession, {sessionId}, false, SongBefore);
        SelectDeleted(songs, SongSession, {sessionId}, {sessionId});
        forall s | s != sessionId ensures Select(Filter(songs, SongSession, {sessionId}, false), SongSession, s)
                                          == Select(songs, SongSession, s) {
          SelectAfterDelete(songs, SongSession, {sessionId}, {s});
        }
        songs := Filter(songs, SongSession, {sessionId}, false);
      } else if service == "youtube" {
        if sessionId in sessions {
          sessions := sessions[sessionId := sessions[sessionId].(youtubeCredentials := None)];
        }
      }
    }

    /**
     * `clear_session_data`: deletes the session's ledger rows, then its transfers, its songs and its
     * session row. Other sessions' rows are untouched.
     */
    method ClearSessionData(sessionId: string)
      requires Valid()
      modifies this`sessions, this`songs, this`transfers, this`results
      ensures Valid()
      ensures results == Filter(old(results), ResultTransfer, SessionTransferIds(old(transfers), sessionId), false)
      ensures transfers == Filter(old(transfers), TransferSession, {sessionId}, false)
      ensures songs == Filter(old(songs), SongSession, {sessionId}, false)
      ensures sessions == old(sessions) - {sessionId}
      ensures GetSongs(sessionId) == [] && GetActiveTransfer(sessionId).None?
      ensures forall s :: s != sessionId ==> GetSongs(s) == old(GetSongs(s))
      ensures old(Consistent()) ==> Consistent()
    {
      ghost var songs0, transfers0, results0 := songs, transfers, results;
      results, transfers, songs := Filter(results, ResultTransfer, SessionTransferIds(transfers, sessionId), false),
        Filter(transfers, TransferSession, {sessionId}, false), Filter(songs, SongSession, {sessionId}, false);
      sessions := sessions - {sessionId};
      ClearSession(songs0, nextSongId, transfers0, nextTransferId, results0, nextResultId, sessionId, songs, transfers, results);
    }
  }
}
