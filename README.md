# Spotify-to-YouTube transfer engine, modelled in Dafny

The application copies a user's liked songs from Spotify into a new YouTube playlist.

- **Fetching** reads the liked songs page by page and stores them as the session's song snapshot.
- **Starting** a transfer creates a playlist and a row in `transfers`.
- **Polling:** the browser then calls `process_transfer` once per song. Each call:
  - takes the session's active transfer;
  - uses its `processed` counter as a cursor into the snapshot;
  - searches YouTube for the song at the cursor and appends the first hit to the playlist;
  - records the outcome as one row of the `transfer_results` ledger;
  - advances the counters.
- **Status:** `transfer_status` reads the active transfer and its ledger back.

This project models that engine and the persistence layer under it.

- `persistence.dfy`: the four SQLite tables (`user_sessions`, `songs`, `transfers`, `transfer_results`) as the fields of a `DatabaseManager` class. The three auto-increment tables are sequences in id order with an explicit next-id counter. `user_sessions` is a map keyed by session id.
- `tables.dfy`: one generic `Filter` over a table models every `SELECT … WHERE key IN …` and every `DELETE … WHERE key IN …`, with lemmas about it.
- `library.dfy`: the liked-songs reader over a given sequence of pages.
- `search.dfy`: the search request and first-item selection. The search call's answer is a parameter of type `SearchRequest -> SearchResponse`; a raised exception is a response of its own.
- `engine.dfy`: the step, as a method over the database. The search and the playlist append are function parameters, so every outcome is covered. The status read is a function.
- `scenarios.dfy`: complete runs from an empty database.
- `schema.dfy` and `wrappers.dfy`: the row datatypes and `Option`/`Result`.

Where the intended behaviour and the code disagree, the model follows the code:

- **Completion test.** A step completes the transfer when the new `processed` reaches `len(songs)` of the *current* snapshot (`>=`, app.py:814 and 849). The stored `total_songs` plays no part, and it is not `processed == total`.
- **Polling after the last song.** The completed transfer is no longer the active one (app.py:255). The next step is therefore refused with "Transfer not initialized", not with "All songs processed" (`Scenarios.OneSongRun`). If an older non-completed transfer of the session exists, it becomes active again (`Persistence.LastActiveAfterCompletion`). "All songs processed" is reached only when the snapshot shrank under an active transfer.
- **The `completed` flag of `transfer_status`** is never true: only a non-completed transfer is ever reported (`Engine.StatusOf`).
- **Reading a match back.** A ledger row whose video id is empty reads back with no match, because the column is tested for truth (app.py:325). `Persistence.StoredMatch` models this.
- **Ledger rows of deleted songs.** `get_transfer_results` inner-joins the ledger with `songs` (app.py:317). Disconnecting Spotify deletes the songs but keeps the ledger, so the ledger rows stop being reported (`Scenarios.DisconnectAfterRun`).

## Model

| member | source | states |
|---|---|---|
| Persistence.DatabaseManager.constructor | app.py:65-134 | a fresh database has empty tables, every id counter at 1, and satisfies the id-order and ledger invariants |
| Persistence.DatabaseManager.GetOrCreateSession | app.py:136-152 | the returned row is the session's row; a missing session is inserted with all credentials NULL and an existing one is left as it was; no other table changes |
| Persistence.DatabaseManager.UpdateSpotifyToken | app.py:154-163 | an existing session's token and user id are set, and nothing else; with no row for the session, nothing changes |
| Persistence.DatabaseManager.UpdateYoutubeCredentials | app.py:165-174 | an existing session's credentials are set, and nothing else; with no row for the session, nothing changes |
| Persistence.DatabaseManager.GetSpotifyToken | app.py:176-182 | a token is returned exactly when the row exists and its column is neither NULL nor empty, and then it is the stored one |
| Persistence.DatabaseManager.GetYoutubeCredentials | app.py:184-190 | credentials are returned exactly when the row exists and its column is neither NULL nor empty, and then they are the stored ones |
| Persistence.DatabaseManager.StoreSongs | app.py:192-215 | afterwards the session's songs are exactly the given list, in order, with fresh ids above every earlier id; every other session's songs are unchanged |
| Persistence.ReplaceSnapshot | app.py:196-213 | deleting a session's rows and appending fresh rows keeps ids increasing, makes the fresh rows the session's whole snapshot, and leaves every other session's selection unchanged |
| Persistence.InsertSong | app.py:201-211 | inserting a song row adds it last to its session's songs and to no other session's songs |
| Persistence.DatabaseManager.GetSongs | app.py:217-236 | returns exactly the session's song rows, in increasing id order |
| Schema.SongsIn | app.py:224-233 | the songs read back are the rows' songs, position by position |
| Persistence.DatabaseManager.CreateTransfer | app.py:238-247 | appends a pending transfer with zero counters under a new id and returns that id; it becomes the session's active transfer; the ledger invariant is kept |
| Persistence.CreateKeepsLedger | app.py:106-108 | a new transfer with zero counters and an unused id keeps every transfer's counter sum and ledger length in step |
| Persistence.DatabaseManager.GetActiveTransfer | app.py:249-259 | returns a non-completed transfer of the session with the largest id among them, and returns none exactly when the session has no non-completed transfer |
| Persistence.LastActive | app.py:253-257 | the position found holds a non-completed transfer of the session and no later position does; none exactly when no position does |
| Persistence.LastActiveIsUnique | app.py:253-257 | a non-completed transfer of the session with none after it is the one found |
| Persistence.LastActiveAfterCompletion | app.py:253-257 | once the active transfer is completed, the active one is the last non-completed transfer created before it, if any |
| Persistence.DatabaseManager.UpdateTransferProgress | app.py:261-288 | every transfer with the given id gets exactly the given columns, and every other transfer is unchanged; with no column given, nothing changes |
| Persistence.Patch | app.py:266-281 | each given column takes the given value, each omitted column keeps its old value, and the key and playlist columns never change |
| Engine.OnlyRowWithId | app.py:286 | with increasing ids, the update by id touches only the one transfer that has it |
| Persistence.DatabaseManager.AddTransferResult | app.py:290-308 | appends exactly one ledger row under a fresh id, carrying the given transfer, song, match (or none), status and flag |
| Persistence.DatabaseManager.GetTransferResults | app.py:310-345 | reports no more rows than the transfer has in the ledger; reports them all when every ledger row's song exists; reports nothing when no song is left |
| Persistence.FindSong | app.py:317 | the join finds a song row with the ledger row's song id, and finds none exactly when no row has that id |
| Persistence.FindSongUnique | app.py:317 | with increasing ids, the join finds exactly the row that holds the id |
| Persistence.StoredMatch | app.py:324-331 | a stored match reads back exactly when it exists and has a non-empty video id, and then unchanged |
| Persistence.Joined | app.py:321-343 | the joined ledger is never longer than the ledger |
| Persistence.JoinedAppendFound | app.py:317-319 | a ledger row appended for an existing song reads back last, after the earlier rows, with its stored fields |
| Persistence.JoinedAppendMissing | app.py:317 | a ledger row whose song is gone does not appear in what is read back |
| Persistence.JoinedAllFound | app.py:317-319 | when every ledger row's song exists, every ledger row is read back |
| Persistence.JoinedNoSongs | app.py:317 | with no songs left, nothing is read back, whatever the ledger holds |
| Persistence.DatabaseManager.DisconnectService | app.py:347-367 | "spotify": nulls the token and user id and deletes exactly the session's songs; other sessions' songs are unchanged and transfers and ledger are not touched. "youtube": nulls only the credentials. Any other name changes nothing |
| Tables.SelectDeleted | app.py:359 | after deleting a key's rows, selecting that key yields nothing |
| Tables.SelectAfterDelete | app.py:359 | deleting one key's rows leaves every other key's selection as it was |
| Tables.FilterPairwise | app.py:221 | deleting or selecting rows keeps the table's id order |
| Tables.Filter | app.py:198 | a row survives exactly when it was in the table and its key passes the test, and the table never grows |
| Persistence.DatabaseManager.ClearSessionData | app.py:369-381 | removes exactly the session's ledger rows, transfers, songs and session row; other sessions' songs are unchanged; the session is left with no songs and no active transfer; both invariants are kept |
| Persistence.ClearSession | app.py:375-378 | the four deletes keep ids in order and the ledger consistent, and leave the session without songs or an active transfer and other sessions' songs as they were |
| Persistence.ClearKeepsLedger | app.py:375-376 | deleting a session's transfers together with their ledger rows keeps the ledger consistent |
| Persistence.DeleteKeepsTables | app.py:375-377 | deleting rows keeps every table's ids increasing and below the next id |
| Library.GetLikedSongs | app.py:439-464 | the reader returns exactly the songs of the pages it follows, in page order and item order |
| Library.AppendPage | app.py:448-457 | one page's songs are appended after those already collected, in item order |
| Library.SongsOfTracks | app.py:448-457 | one song per track |
| Library.SongsOfTracksAt | app.py:448-457 | the i-th song is built from the i-th track |
| Library.SongOf | app.py:449-457 | the song record takes the track's id, name, album, duration and Spotify URL, and its artist names joined with ", " |
| Library.Links | app.py:459 | a missing next link and an empty one both end the reading; a non-empty link is followed |
| Library.FlattenFrom | app.py:447-462 | from page k on: nothing past the last page; otherwise page k's songs come first, and they are everything when page k has no next link |
| Library.Flatten | app.py:444-462 | nothing for no pages; otherwise the first page's songs come first, and they are everything when the first page has no next link |
| Library.FlattenLinked | app.py:459-462 | when every page but the last has a next link, all pages' songs are collected in page order |
| Library.FlattenStopsAtLastPage | app.py:459-462 | pages after the first page with no next link are never read |
| Library.JoinArtists | app.py:453 | no artists join to the empty string and a single artist to its own name |
| Library.JoinArtistsConcat | app.py:453 | joining two lists of names is joining their joins with one ", " between them |
| Search.RequestFor | app.py:471-480 | the query is the title, one space and the artist; the request asks for at most 5 videos of category "10", with parts "id,snippet" |
| Search.MatchOf | app.py:484-490 | the match carries the item's video id, title, channel title and default thumbnail |
| Search.FirstMatch | app.py:483-495 | a match exists exactly when the call returned at least one item, and then it is the first item; a raised call yields none |
| Engine.Rejection | app.py:767-778 | the step is refused for no active transfer, then for an empty snapshot, then for a cursor at or past the snapshot's end, with the refusal that matches each case; it goes through exactly when a transfer is active and its cursor is inside the snapshot |
| Engine.Outcome | app.py:785-799 | no match gives not_found; a match whose append succeeds gives success; a match whose append fails gives add_failed; a song counts as added exactly when the outcome is success |
| Engine.Advance | app.py:811-814 | one more song is processed, and exactly one of successful and failed grows by one, successful exactly when the video was added; the status is completed exactly when the new position reaches the snapshot's length, and processing otherwise |
| Engine.MatchFor | app.py:783 | the song's match exists exactly when the search for its title and artist returned items, and then it is the first item |
| Engine.StepOf | app.py:783-814 | the step's decision: the match found, added exactly when the outcome is success, not found exactly when there is no match, added exactly when there is a match and its append succeeds; the transfer keeps its id, processes one more song, gains exactly one success or failure, a success exactly when added, and is completed exactly when the new position reaches the snapshot's length |
| Schema.ViewOf | app.py:825-830 | the reported song carries the stored song's source id, title, artist and album |
| Engine.Percentage | app.py:847 | the percentage times the snapshot size is the processed count times 100; it is 0 for an empty snapshot |
| Engine.PercentageBounds | app.py:847 | within the snapshot the percentage lies between 0 and 100, and it is 100 exactly at the end |
| Engine.ProgressOf | app.py:842-848 | the progress block carries the transfer's counters and the snapshot size; its percentage is 0 for an empty snapshot, lies between 0 and 100 within the snapshot and is 100 exactly at its end |
| Engine.ReplayCounts | app.py:811-814 | after a run of steps, processed has grown by the number of steps, successful by the number of additions and failed by the rest; the status is completed exactly when the run reached the end of the snapshot |
| Persistence.StepKeepsLedger | app.py:802-822 | a step keeps the invariant that each transfer's processed equals successful plus failed and equals its number of ledger rows |
| Engine.StepReadsBack | app.py:802-808 | the ledger row a step appends reads back as its transfer's last result, after the earlier ones |
| Engine.StepKeepsActive | app.py:814 | a transfer that stays non-completed stays the active one; once completed, no later transfer of the session is active |
| Engine.RecordOutcome | app.py:802-822 | the step's two writes: one ledger row for the song at the cursor under the next ledger id, which then moves up by one, then the transfer's counters and status replaced by their advanced values; songs, sessions and the other id counters are unchanged |
| Engine.ProcessTransfer | app.py:762-854 | a refused step changes nothing and reports its refusal. A step that goes through appends exactly one ledger row for the song at the old cursor, with its match and outcome, and advances only the active transfer and the ledger's next id; songs, sessions and the other id counters are unchanged. It replies with the song, the outcome, the new counters over the current snapshot, and completed exactly when the cursor reached the end. It keeps the ledger invariant; the new row reads back after the earlier ones; the transfer stays active until completed |
| Engine.StatusOf | app.py:857-880 | refused exactly when no transfer is active; otherwise reports the active transfer's playlist, its counters against the current snapshot and its ledger read back; completed is never reported; under the ledger invariant, current is successful plus failed and no more rows are reported than processed |
| Scenarios.Start | app.py:681-748 | storing a non-empty snapshot in an empty database and starting a transfer of it yields a single pending transfer with zero counters whose total is the snapshot's size |
| Scenarios.OneSongRun | app.py:762-822 | with one song, the first poll processes it and completes the transfer, with the outcome the search and append determine; the second poll is refused as not initialized |
| Scenarios.DisconnectAfterRun | app.py:347-367 | after one song has been processed, disconnecting Spotify keeps the ledger row but no result is reported any more |

## Left out

- OAuth flows, token refresh and credential rebuilding, Flask routing, `jsonify`, `flash`, redirects and the session cookie. This is foreign-library and HTTP plumbing. Session ids and token blobs are plain strings.
- JSON serialisation of tokens and credentials. The blobs are stored and returned as opaque strings.
- The SQLite connection, the schema DDL and every `updated_at`/`created_at` timestamp. Recency of "active" is creation order, which is id order. Two transfers created within the same second, which SQLite would tie on `created_at`, are not modelled.
- Separate commits. The step's ledger insert and counter update are two commits in the source. The model performs them back to back in one method, so a crash between them, which would leave a ledger row without its counter update, is not modelled.
- Concurrency. Two step requests racing on the same transfer, each reading the counters before the other writes them, are not modelled; calls are sequential.
- `time.sleep` between steps, since it is timing only.
- The calls to the external services themselves: creating the playlist, the Spotify pages and the search. The pages are a given sequence, the search answer and the append result are function parameters, and the playlist id is a given string.
- The "client not initialized" exceptions of the service object and the status 500 path of the step. With clients set, the step raises nothing: the search and the append catch their own exceptions.
- Python truthiness of a page. An empty page dictionary, which would end the reader's loop, is not modelled; a page ends the loop only when its next link is missing or empty.
- Malformed track or search items. A missing key in a track would raise out of the reader and is not modelled. A missing key in a search item is caught like any other exception, and is modelled as the `Raised` response.
- Integer widths. Counters and ids are unbounded naturals; SQLite's 64-bit integers never wrap at these sizes. Python's negative list indices do not arise because the cursor is never negative.
- Default arguments of `add_transfer_result` (no match, `not_found`, not added). The model's `AddTransferResult` takes all five values explicitly; the only caller, the step, passes all five, so no behaviour is lost.
- Engine.Percentage: computed in exact real arithmetic. Floating-point rounding of the division is not modelled.
- Persistence.DatabaseManager.GetTransferResults: its contract states how many rows are reported and when, not each row's contents. The contents are stated by the `Persistence.Joined*` lemmas and by the read-back clause of `Engine.ProcessTransfer`.
- Persistence.Joined: its own contract states only the length bound; its contents are stated by `JoinedAppendFound`, `JoinedAppendMissing`, `JoinedAllFound` and `JoinedNoSongs`.
- Scenarios: a multi-song run is covered generally by `Engine.ReplayCounts` and the contract of `Engine.ProcessTransfer`, not by a concrete scenario of several steps.
