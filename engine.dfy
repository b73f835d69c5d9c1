/**
 * The transfer engine: one request of the browser's polling loop processes the next song of the
 * session's snapshot, records its outcome in the ledger and advances the transfer's counters; the
 * status request reads the active transfer back.
 */
module Engine {
  import opened Wrappers
  import opened Schema
  import opened Tables
  import opened Search
  import opened Persistence

  /** Why a step was refused; each is answered with status 400 and changes nothing. */
  datatype StepError = TransferNotInitialized | NoSongsFound | AllSongsProcessed

  /** The progress block of a reply. `percentage` is exact here; the server computes it in floating point. */
  datatype Progress = Progress(current: nat, total: nat, successful: nat, failed: nat, percentage: real)

  /** The reply to a step that went through. */
  datatype StepReply = StepReply(result: ResultView, progress: Progress, completed: bool)

  /** What one step decides for the song in hand. */
  datatype Step = Step(found: Option<Match>, status: ResultStatus, added: bool, after: TransferRow)

  /** The status request's only refusal, answered with status 404. */
  datatype StatusError = NoTransferInProgress

  /** The reply to a status request. */
  datatype StatusReply = StatusReply(
    playlistId: string,
    playlistName: string,
    progress: Progress,
    completed: bool,
    results: seq<ResultView>)

  /**
   * The checks a step makes before it touches anything, in the order it makes them: an active
   * transfer, a non-empty snapshot, and a song left at the transfer's position.
   */
  function Rejection(active: Option<TransferRow>, songCount: nat): (e: Option<StepError>)
    ensures e == Some(TransferNotInitialized) <==> active.None?
    ensures e == Some(NoSongsFound) <==> active.Some? && songCount == 0
    ensures e == Some(AllSongsProcessed) <==> active.Some? && songCount > 0 && active.value.processed >= songCount
    ensures e.None? <==> active.Some? && active.value.processed < songCount
  {
    if active.None? then Some(TransferNotInitialized)
    else if songCount == 0 then Some(NoSongsFound)
    else if active.value.processed >= songCount then Some(AllSongsProcessed)
    else None
  }

  /**
   * The outcome of a song: not found without a match; otherwise the video is appended to the
   * playlist, and the song is a success exactly when the append reports success.
   */
  function Outcome(found: Option<Match>, playlistId: string, append: (string, string) -> bool): (r: (ResultStatus, bool))
    ensures r.1 <==> r.0 == Success
    ensures r.0 == NotFound <==> found.None?
    ensures r.0 == Success <==> found.Some? && append(playlistId, found.value.videoId)
    ensures r.0 == AddFailed <==> found.Some? && !append(playlistId, found.value.videoId)
  {
    if found.None? then (NotFound, false)
    else if append(playlistId, found.value.videoId) then (Success, true)
    else (AddFailed, false)
  }

  /**
   * The transfer after one more song: one more processed, one more success or one more failure,
   * completed once the position reaches the snapshot's length and processing before; nothing else changes.
   */
  function Advance(t: TransferRow, added: bool, songCount: nat): (u: TransferRow)
    ensures u.id == t.id && u.sessionId == t.sessionId && u.playlistId == t.playlistId
    ensures u.playlistName == t.playlistName && u.totalSongs == t.totalSongs
    ensures u.processed == t.processed + 1
    ensures u.successful + u.failed == t.successful + t.failed + 1
    ensures u.successful == t.successful + 1 <==> added
    ensures u.failed == t.failed + 1 <==> !added
    ensures u.status == Completed <==> u.processed >= songCount
    ensures u.status == Processing <==> u.processed < songCount
  {
    var processed := t.processed + 1;
    Patch(t, Some(processed), Some(t.successful + (if added then 1 else 0)), Some(t.failed + (if added then 0 else 1)),
          Some(if processed >= songCount then Completed else Processing))
  }

  /** The share of the snapshot processed, in percent; zero for an empty snapshot. */
  function Percentage(current: nat, total: nat): (p: real)
    ensures total == 0 ==> p == 0.0
    ensures total > 0 ==> p * (total as real) == (current as real) * 100.0
  {
    if total == 0 then 0.0 else (current as real / total as real) * 100.0
  }

  /** Within the snapshot the percentage lies between 0 and 100, and it is 100 exactly at the end. */
  lemma PercentageBounds(current: nat, total: nat)
    requires 0 < total && current <= total
    ensures 0.0 <= Percentage(current, total) <= 100.0
    ensures Percentage(current, total) == 100.0 <==> current == total
  {
    var p, n, c := Percentage(current, total), total as real, current as real;
    assert p * n == c * 100.0;
    assert p < 0.0 ==> p * n < 0.0;
    assert p > 100.0 ==> p * n > 100.0 * n;
    assert p == 100.0 ==> c == n;
    assert c == n ==> p * n == 100.0 * n;
  }

  /** The progress block for a transfer over a snapshot of `total` songs. */
  function ProgressOf(t: TransferRow, total: nat): (p: Progress)
    ensures p.current == t.processed && p.total == total
    ensures p.successful == t.successful && p.failed == t.failed
    ensures total == 0 ==> p.percentage == 0.0
    ensures 0 < total && t.processed <= total ==> 0.0 <= p.percentage <= 100.0
    ensures 0 < total && t.processed <= total ==> (p.percentage == 100.0 <==> t.processed == total)
  {
    assert 0 < total && t.processed <= total ==>
      0.0 <= Percentage(t.processed, total) <= 100.0 && (Percentage(t.processed, total) == 100.0 <==> t.processed == total) by {
      if 0 < total && t.processed <= total { PercentageBounds(t.processed, total); }
    }
    Progress(t.processed, total, t.successful, t.failed, Percentage(t.processed, total))
  }

  /** The match for a song: the first hit of the search on its title and artist. */
  function MatchFor(song: SongRow, search: SearchRequest -> SearchResponse): (r: Option<Match>)
    ensures var response := search(RequestFor(song.song.name, song.song.artist));
      && (r.Some? <==> response.Items? && response.items != [])
      && (r.Some? ==> r.value == MatchOf(response.items[0]))
  {
    FirstMatch(search(RequestFor(song.song.name, song.song.artist)))
  }

  /** Everything a step decides for transfer t and the song at its position. */
  function StepOf(t: TransferRow, song: SongRow, songCount: nat,
                  search: SearchRequest -> SearchResponse, append: (string, string) -> bool): (r: Step)
    ensures r.found == MatchFor(song, search)
    ensures r.added <==> r.status == Success
    ensures r.status == NotFound <==> r.found.None?
    ensures r.added <==> r.found.Some? && append(t.playlistId, r.found.value.videoId)
    ensures r.after.id == t.id && r.after.processed == t.processed + 1
    ensures r.after.successful + r.after.failed == t.successful + t.failed + 1
    ensures r.after.successful == t.successful + 1 <==> r.added
    ensures r.after.status == Completed <==> t.processed + 1 >= songCount
  {
    var found := MatchFor(song, search);
    var (status, added) := Outcome(found, t.playlistId, append);
    Step(found, status, added, Advance(t, added, songCount))
  }

  /**
   * Steps over a snapshot of `songCount` songs, one per outcome in `added`: the counters after them.
   * The position is the only thing the engine reads back, so a step never depends on earlier outcomes.
   */
  function Replay(t: TransferRow, added: seq<bool>, songCount: nat): TransferRow
  {
    if added == [] then t else Advance(Replay(t, added[..|added| - 1], songCount), added[|added| - 1], songCount)
  }

  /** The number of successes among the outcomes. */
  function Successes(added: seq<bool>): nat
  {
    if added == [] then 0 else Successes(added[..|added| - 1]) + (if added[|added| - 1] then 1 else 0)
  }

  /**
   * After a run of steps the transfer has processed one song per step, its successes are the
   * steps that added their video and its failures the rest; it is completed exactly when the run
   * reached the end of the snapshot.
   */
  lemma {:induction false} ReplayCounts(t: TransferRow, added: seq<bool>, songCount: nat)
    requires added != []
    ensures Successes(added) <= |added|
    ensures Replay(t, added, songCount).processed == t.processed + |added|
    ensures Replay(t, added, songCount).successful == t.successful + Successes(added)
    ensures Replay(t, added, songCount).failed == t.failed + |added| - Successes(added)
    ensures Replay(t, added, songCount).status == Completed <==> t.processed + |added| >= songCount
    ensures Replay(t, added, songCount).id == t.id && Replay(t, added, songCount).playlistId == t.playlistId
  {
    var init := added[..|added| - 1];
    if init != [] {
      ReplayCounts(t, init, songCount);
    }
  }

  /** With unique ids, the position of a transfer is the only one that holds its id. */
  lemma OnlyRowWithId(ts: seq<TransferRow>, k: nat)
    requires Pairwise(ts, TransferBefore) && k < |ts|
    ensures forall i :: 0 <= i < |ts| && i != k ==> ts[i].id != ts[k].id
  {
    forall i | 0 <= i < |ts| && i != k ensures ts[i].id != ts[k].id {
      if i < k { assert TransferBefore(ts[i], ts[k]); } else { assert TransferBefore(ts[k], ts[i]); }
    }
  }

  /** The ledger row a step appends reads back as one more result of its transfer, after the earlier ones. */
  lemma StepReadsBack(rs: seq<ResultRow>, songs: seq<SongRow>, row: ResultRow, song: SongRow)
    requires Pairwise(songs, SongBefore) && song in songs && row.songId == song.id
    ensures Joined(Select(rs + [row], ResultTransfer, row.transferId), songs)
         == Joined(Select(rs, ResultTransfer, row.transferId), songs)
            + [ResultView(ViewOf(song), StoredMatch(row.youtube), row.status, row.addedToPlaylist)]
  {
    FilterAppend(rs, row, ResultTransfer, {row.transferId}, true);
    FindSongUnique(songs, song);
    JoinedAppendFound(Select(rs, ResultTransfer, row.transferId), row, songs, song);
  }

  /**
   * After the transfer at position k, the session's active one, is advanced to u: it stays the active
   * transfer while u is not completed, and once it is, no transfer with a later id is active.
   */
  lemma StepKeepsActive(ts: seq<TransferRow>, sessionId: string, k: nat, u: TransferRow)
    requires Pairwise(ts, TransferBefore)
    requires LastActive(ts, sessionId) == Some(k) && u.id == ts[k].id && u.sessionId == sessionId
    ensures IsActive(u, sessionId) ==> LastActive(ts[k := u], sessionId) == Some(k)
    ensures !IsActive(u, sessionId) ==> forall x :: x in ts[k := u] && IsActive(x, sessionId) ==> x.id < u.id
  {
    var ts' := ts[k := u];
    if IsActive(u, sessionId) {
      LastActiveIsUnique(ts', sessionId, k);
    } else {
      forall x | x in ts' && IsActive(x, sessionId) ensures x.id < u.id {
        var j :| 0 <= j < |ts'| && ts'[j] == x;
        assert j != k;
        assert j < k;
        assert TransferBefore(ts[j], ts[k]);
      }
    }
  }

  /**
   * The writes of a step, in the order `process_transfer` makes them: the ledger row for the song,
   * then the advanced counters of transfer t, which sits at position k.
   */
  method RecordOutcome(db: DatabaseManager, ghost k: nat, t: TransferRow, songDbId: nat, found: Option<Match>,
                       status: ResultStatus, added: bool, songCount: nat)
    returns (newProcessed: nat, newSuccessful: nat, newFailed: nat)
    requires db.Valid() && k < |db.transfers| && db.transfers[k] == t
    modifies db
    ensures db.Valid()
    ensures db.results == old(db.results) + [ResultRow(old(db.nextResultId), t.id, songDbId, found, status, added)]
    ensures db.transfers == old(db.transfers)[k := Advance(t, added, songCount)]
    ensures db.songs == old(db.songs) && db.sessions == old(db.sessions)
    ensures db.nextSongId == old(db.nextSongId) && db.nextTransferId == old(db.nextTransferId)
    ensures db.nextResultId == old(db.nextResultId) + 1
    ensures newProcessed == Advance(t, added, songCount).processed
    ensures newSuccessful == Advance(t, added, songCount).successful
    ensures newFailed == Advance(t, added, songCount).failed
  {
    db.AddTransferResult(t.id, songDbId, found, status, added);
    newProcessed := t.processed + 1;
    newSuccessful := t.successful + (if added then 1 else 0);
    newFailed := t.failed + (if added then 0 else 1);
    var newStatus := if newProcessed >= songCount then Completed else Processing;
    db.UpdateTransferProgress(t.id, Some(newProcessed), Some(newSuccessful), Some(newFailed), Some(newStatus));
    OnlyRowWithId(old(db.transfers), k);
  }

  /**
   * `process_transfer`: refuses without an active transfer, without songs, and when the position
   * has reached the end of the snapshot, changing nothing. Otherwise it searches for the song at the
   * position, appends the match to the playlist if there is one, records the outcome as one ledger
   * row and writes the advanced counters. `search` and `append` stand for the destination service.
   */
  method ProcessTransfer(db: DatabaseManager, sessionId: string,
                         search: SearchRequest -> SearchResponse, append: (string, string) -> bool)
    returns (reply: Result<StepReply, StepError>)
    requires db.Valid()
    modifies db
    ensures db.Valid()
    ensures reply.Err? <==> Rejection(old(db.GetActiveTransfer(sessionId)), |old(db.GetSongs(sessionId))|).Some?
    ensures reply.Err? ==>
      reply.error == Rejection(old(db.GetActiveTransfer(sessionId)), |old(db.GetSongs(sessionId))|).value && unchanged(db)
    ensures reply.Ok? ==>
      var t := old(db.GetActiveTransfer(sessionId)).value;
      var songs := old(db.GetSongs(sessionId));
      var song := songs[t.processed];
      var st := StepOf(t, song, |songs|, search, append);
      && old(LastActive(db.transfers, sessionId)).Some?
      && db.results == old(db.results) + [ResultRow(old(db.nextResultId), t.id, song.id, st.found, st.status, st.added)]
      && db.transfers == old(db.transfers)[old(LastActive(db.transfers, sessionId)).value := st.after]
      && db.songs == old(db.songs) && db.sessions == old(db.sessions)
      && db.nextSongId == old(db.nextSongId) && db.nextTransferId == old(db.nextTransferId)
      && db.nextResultId == old(db.nextResultId) + 1
      && reply.value == StepReply(ResultView(ViewOf(song), st.found, st.status, st.added),
                                  ProgressOf(st.after, |songs|), st.after.processed >= |songs|)
    ensures reply.Ok? && old(db.Consistent()) ==> db.Consistent()
    ensures reply.Ok? ==>
      var t := old(db.GetActiveTransfer(sessionId)).value;
      var st := StepOf(t, old(db.GetSongs(sessionId))[t.processed], |old(db.GetSongs(sessionId))|, search, append);
      db.GetTransferResults(t.id)
        == old(db.GetTransferResults(t.id))
           + [ResultView(ViewOf(old(db.GetSongs(sessionId))[t.processed]), StoredMatch(st.found), st.status, st.added)]
    ensures reply.Ok? ==>
      var t := old(db.GetActiveTransfer(sessionId)).value;
      && (!reply.value.completed ==> db.GetActiveTransfer(sessionId) == Some(db.transfers[old(LastActive(db.transfers, sessionId)).value]))
      && (reply.value.completed ==> forall x :: x in db.transfers && IsActive(x, sessionId) ==> x.id < t.id)
  {
    var active := db.GetActiveTransfer(sessionId);
    if active.None? {
      reply := Err(TransferNotInitialized);
      return;
    }
    var t := active.value;
    var songs := db.GetSongs(sessionId);
    if |songs| == 0 {
      reply := Err(NoSongsFound);
      return;
    }
    var current := t.processed;
    if current >= |songs| {
      reply := Err(AllSongsProcessed);
      return;
    }
    var song := songs[current];
    var found := FirstMatch(search(RequestFor(song.song.name, song.song.artist)));
    var (status, added) := Outcome(found, t.playlistId, append);
    ghost var k := LastActive(db.transfers, sessionId).value;
    ghost var ts, rs := db.transfers, db.results;
    ghost var row := ResultRow(db.nextResultId, t.id, song.id, found, status, added);
    var newProcessed, newSuccessful, newFailed := RecordOutcome(db, k, t, song.id, found, status, added, |songs|);
    ghost var u := Advance(t, added, |songs|);
    assert old(db.Consistent()) ==> db.Consistent() by {
      if old(db.Consistent()) { StepKeepsLedger(ts, rs, k, u, row); }
    }
    StepReadsBack(rs, db.songs, row, song);
    StepKeepsActive(ts, sessionId, k, u);
    reply := Ok(StepReply(ResultView(ViewOf(song), found, status, added),
                          Progress(newProcessed, |songs|, newSuccessful, newFailed, Percentage(newProcessed, |songs|)),
                          newProcessed >= |songs|));
  }

  /**
   * `transfer_status`: the active transfer's playlist, its stored counters against the current
   * snapshot and its ledger read back. The reply's `completed` is never set, because a completed
   * transfer is never the active one; without an active transfer the request is refused.
   */
  function StatusOf(db: DatabaseManager, sessionId: string): (r: Result<StatusReply, StatusError>)
    reads db
    ensures r.Err? <==> db.GetActiveTransfer(sessionId).None?
    ensures r.Ok? ==> !r.value.completed
    ensures r.Ok? ==>
      var t := db.GetActiveTransfer(sessionId).value;
      && r.value.playlistId == t.playlistId && r.value.playlistName == t.playlistName
      && r.value.progress == ProgressOf(t, |db.GetSongs(sessionId)|)
      && r.value.results == db.GetTransferResults(t.id)
    ensures r.Ok? && db.Consistent() ==>
      && r.value.progress.current == r.value.progress.successful + r.value.progress.failed
      && |r.value.results| <= r.value.progress.current
  {
    match db.GetActiveTransfer(sessionId)
    case None => Err(NoTransferInProgress)
    case Some(t) =>
      Ok(StatusReply(t.playlistId, t.playlistName, ProgressOf(t, |db.GetSongs(sessionId)|),
                     t.status == Completed, db.GetTransferResults(t.id)))
  }
}
