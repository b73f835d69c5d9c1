/**
 * The liked-songs reader: the source service returns the saved tracks a page at a time, each page
 * with an optional link to the next; the reader follows the links and flattens every page into one
 * ordered song list.
 */
module Library {
  import opened Wrappers
  import opened Schema
  import opened Tables

  /** A saved track as the source service describes it. */
  datatype Track = Track(
    id: string,
    name: string,
    artists: seq<string>,
    albumName: string,
    durationMs: int,
    spotifyUrl: string)

  /** One page of saved tracks and the link to the next page, if any. */
  datatype Page = Page(items: seq<Track>, next: Option<string>)

  /**
   * The page links onward: its next link is set and, being a string tested for truth, not empty.
   * A missing link and an empty one both end the reading.
   */
  predicate Links(p: Page)
    ensures p.next.None? ==> !Links(p)
    ensures p.next == Some("") ==> !Links(p)
    ensures p.next.Some? && |p.next.value| > 0 ==> Links(p)
  {
    p.next.Some? && p.next.value != ""
  }

  /**
   * The artist names joined with ", ", as Python's `', '.join` does: nothing for no names, a single
   * name as it is; longer lists are split at a separator by `JoinArtistsConcat`.
   */
  function JoinArtists(names: seq<string>): (r: string)
    ensures names == [] ==> r == ""
    ensures |names| == 1 ==> r == names[0]
  {
    if names == [] then ""
    else if |names| == 1 then names[0]
    else JoinArtists(names[..|names| - 1]) + ", " + names[|names| - 1]
  }

  /** Joining two non-empty lists of names is joining their joins with one more separator. */
  lemma {:induction false} JoinArtistsConcat(a: seq<string>, b: seq<string>)
    requires a != [] && b != []
    ensures JoinArtists(a + b) == JoinArtists(a) + ", " + JoinArtists(b)
  {
    var ab, last := a + b, b[|b| - 1];
    assert |ab| >= 2 && ab[|ab| - 1] == last;
    if |b| == 1 {
      assert ab[..|ab| - 1] == a;
      assert JoinArtists(ab) == JoinArtists(a) + ", " + last;
    } else {
      var init := b[..|b| - 1];
      assert ab[..|ab| - 1] == a + init;
      JoinArtistsConcat(a, init);
      var ja, ji := JoinArtists(a), JoinArtists(init);
      assert JoinArtists(ab) == (ja + ", " + ji) + ", " + last;
      assert JoinArtists(b) == ji + ", " + last;
      assert (ja + ", " + ji) + ", " + last == ja + ", " + (ji + ", " + last);
    }
  }

  /** The song record the reader builds from a track. */
  function SongOf(t: Track): (s: Song)
    ensures s.spotifyId == t.id && s.name == t.name && s.album == t.albumName
    ensures s.durationMs == t.durationMs && s.externalUrl == t.spotifyUrl
    ensures s.artist == JoinArtists(t.artists)
  {
    Song(t.id, t.name, JoinArtists(t.artists), t.albumName, t.durationMs, t.spotifyUrl)
  }

  /** The songs of some tracks, in track order. */
  function SongsOfTracks(ts: seq<Track>): (r: seq<Song>)
    ensures |r| == |ts|
  {
    if ts == [] then [] else SongsOfTracks(ts[..|ts| - 1]) + [SongOf(ts[|ts| - 1])]
  }

  /** The i-th song is built from the i-th track. */
  lemma {:induction false} SongsOfTracksAt(ts: seq<Track>, i: nat)
    requires i < |ts|
    ensures SongsOfTracks(ts)[i] == SongOf(ts[i])
  {
    if i < |ts| - 1 {
      SongsOfTracksAt(ts[..|ts| - 1], i);
    }
  }

  /**
   * The songs the reader collects from page k on, where `pages[0]` is the first page and following the
   * link of `pages[k]` yields `pages[k + 1]` (or nothing, when the list runs out).
   */
  function FlattenFrom(pages: seq<Page>, k: nat): (r: seq<Song>)
    ensures k >= |pages| ==> r == []
    ensures k < |pages| ==> SongsOfTracks(pages[k].items) <= r
    ensures k < |pages| && !Links(pages[k]) ==> r == SongsOfTracks(pages[k].items)
    decreases |pages| - k
  {
    if k >= |pages| then []
    else SongsOfTracks(pages[k].items) + (if Links(pages[k]) then FlattenFrom(pages, k + 1) else [])
  }

  /** Everything the reader collects, starting at the first page. */
  function Flatten(pages: seq<Page>): (r: seq<Song>)
    ensures pages == [] ==> r == []
    ensures pages != [] ==> SongsOfTracks(pages[0].items) <= r
    ensures pages != [] && !Links(pages[0]) ==> r == SongsOfTracks(pages[0].items)
  {
    FlattenFrom(pages, 0)
  }

  /** Every page's songs from page k on, concatenated in page order. */
  function AllSongsFrom(pages: seq<Page>, k: nat): seq<Song>
    decreases |pages| - k
  {
    if k >= |pages| then [] else SongsOfTracks(pages[k].items) + AllSongsFrom(pages, k + 1)
  }

  /** When every page but the last links onward, the reader returns all pages' songs in page order. */
  lemma {:induction false} FlattenLinked(pages: seq<Page>, k: nat)
    requires forall i :: 0 <= i < |pages| - 1 ==> Links(pages[i])
    ensures FlattenFrom(pages, k) == AllSongsFrom(pages, k)
    decreases |pages| - k
  {
    if k < |pages| - 1 {
      FlattenLinked(pages, k + 1);
    }
  }

  /** Pages past the first page without a link are never read: cutting them off changes nothing. */
  lemma {:induction false} FlattenStopsAtLastPage(pages: seq<Page>, last: nat, k: nat)
    requires last < |pages| && !Links(pages[last]) && k <= last
    ensures FlattenFrom(pages, k) == FlattenFrom(pages[..last + 1], k)
    decreases last - k
  {
    var cut := pages[..last + 1];
    assert k < |cut| && cut[k] == pages[k];
    if k < last && Links(pages[k]) {
      FlattenStopsAtLastPage(pages, last, k + 1);
      assert FlattenFrom(pages, k) == SongsOfTracks(pages[k].items) + FlattenFrom(pages, k + 1);
      assert FlattenFrom(cut, k) == SongsOfTracks(pages[k].items) + FlattenFrom(cut, k + 1);
    } else {
      assert FlattenFrom(pages, k) == SongsOfTracks(pages[k].items);
      assert FlattenFrom(cut, k) == SongsOfTracks(pages[k].items);
    }
  }

  /** Reading page k, which links onward, moves its songs from what is still to come to what is collected. */
  lemma ReadLinkedPage(pages: seq<Page>, k: nat, before: seq<Song>)
    requires k < |pages| && Links(pages[k])
    ensures before + FlattenFrom(pages, k) == (before + SongsOfTracks(pages[k].items)) + FlattenFrom(pages, k + 1)
  {
    var here, rest := SongsOfTracks(pages[k].items), FlattenFrom(pages, k + 1);
    assert before + (here + rest) == (before + here) + rest;
  }

  /** The loop over one page's items: each track's song is appended, in the page's order. */
  method AppendPage(songs: seq<Song>, page: Page) returns (r: seq<Song>)
    ensures r == songs + SongsOfTracks(page.items)
  {
    r := songs;
    var j := 0;
    while j < |page.items|
      invariant 0 <= j <= |page.items|
      invariant r == songs + SongsOfTracks(page.items[..j])
    {
      assert page.items[..j + 1][..j] == page.items[..j];
      r := r + [SongOf(page.items[j])];
      j := j + 1;
    }
    assert page.items[..j] == page.items;
  }

  /**
   * `get_spotify_liked_songs`: takes the first page, appends the songs of the page in hand, and moves
   * on while the page links to a next one and fetching it yields a page.
   */
  method GetLikedSongs(pages: seq<Page>) returns (songs: seq<Song>)
    ensures songs == Flatten(pages)
  {
    songs := [];
    var k := 0;
    assert songs + FlattenFrom(pages, 0) == Flatten(pages);
    var results: Option<Page> := if |pages| > 0 then Some(pages[0]) else None;
    while results.Some?
      invariant k <= |pages|
      invariant forall i :: 0 <= i < k ==> Links(pages[i])
      invariant results.Some? ==> k < |pages| && results.value == pages[k] && songs + FlattenFrom(pages, k) == Flatten(pages)
      invariant results.None? ==> songs == Flatten(pages)
      decreases |pages| - k
    {
      var page := results.value;
      ghost var before := songs;
      songs := AppendPage(songs, page);
      if Links(page) {
        ReadLinkedPage(pages, k, before);
        k := k + 1;
        results := if k < |pages| then Some(pages[k]) else None;
      } else {
        assert FlattenFrom(pages, k) == SongsOfTracks(page.items) + [];
        break;
      }
    }
  }
}
