/**
 * The `Song` record of the catalogue and the two things the Search and
 * Torrents pages both do with it: the case-insensitive title/artist/album
 * filter and the mock magnet link handed to the download queue.
 */
module Catalog {

  import opened Wrappers
  import opened Text
  import Seqs

  datatype Song = Song(
    id: string,
    title: string,
    artist: string,
    album: string,
    duration: int,
    albumArt: string,
    torrentUrl: Option<string>)

  /** The filter predicate of both search pages: title, artist or album contains the query. */
  function Matches(song: Song, query: string): (r: bool)
    ensures r <==>
      || (exists i :: OccursAt(ToLower(song.title), ToLower(query), i))
      || (exists i :: OccursAt(ToLower(song.artist), ToLower(query), i))
      || (exists i :: OccursAt(ToLower(song.album), ToLower(query), i))
    ensures query == "" ==> r
  {
    || IncludesIgnoringCase(song.title, query)
    || IncludesIgnoringCase(song.artist, query)
    || IncludesIgnoringCase(song.album, query)
  }

  function MatchesQuery(query: string): (p: Song -> bool)
    ensures forall s :: p(s) == Matches(s, query)
  {
    s => Matches(s, query)
  }

  /** `songs.filter(...)` with the predicate above. */
  function FilterByQuery(songs: seq<Song>, query: string): (r: seq<Song>)
    ensures |r| <= |songs|
    ensures forall i :: 0 <= i < |r| ==> r[i] in songs && Matches(r[i], query)
    ensures forall i :: 0 <= i < |songs| && Matches(songs[i], query) ==> songs[i] in r
  {
    Seqs.Filter(MatchesQuery(query), songs)
  }

  /** The results keep the catalogue's order. */
  lemma FilterByQueryIsSubsequence(songs: seq<Song>, query: string)
    ensures Seqs.Subsequence(FilterByQuery(songs, query), songs)
  {
    Seqs.FilterIsSubsequence(MatchesQuery(query), songs);
  }

  /** Searching the results again with the same query returns them unchanged. */
  lemma FilterByQueryIdempotent(songs: seq<Song>, query: string)
    ensures FilterByQuery(FilterByQuery(songs, query), query) == FilterByQuery(songs, query)
  {
    Seqs.FilterIdempotent(MatchesQuery(query), songs);
  }

  /** Case does not matter: a query matches the same songs as its lower-case form. */
  lemma MatchesIgnoresQueryCase(song: Song, query: string)
    ensures Matches(song, query) == Matches(song, ToLower(query))
  {
    ToLowerIdempotent(query);
  }

  /** The empty query is contained in every field, so it keeps every song. */
  lemma FilterByEmptyQuery(songs: seq<Song>)
    ensures FilterByQuery(songs, "") == songs
  {
    forall i | 0 <= i < |songs|
      ensures Matches(songs[i], "")
    {
      IncludesEmpty(ToLower(songs[i].title));
    }
    Seqs.FilterKeepsAll(MatchesQuery(""), songs);
  }

  // ---------------------------------------------------------------------------
  // The mock magnet link of `handleDownload`
  // ---------------------------------------------------------------------------

  const MagnetPrefix: string := "magnet:?mocklink&"

  /** `magnet:?mocklink&${song.id}`. */
  function MagnetLink(id: string): (link: string)
    ensures |link| == |MagnetPrefix| + |id|
    ensures StartsWith(link, MagnetPrefix)
  {
    MagnetPrefix + id
  }

  /** Reads the song id back out of a mock magnet link. */
  function ParseMagnetLink(link: string): (id: Option<string>)
    ensures id.Some? <==> StartsWith(link, MagnetPrefix)
  {
    if StartsWith(link, MagnetPrefix) then Some(link[|MagnetPrefix|..]) else None
  }

  /** The link names the song it was built for. */
  lemma ParseMagnetLinkRoundTrip(id: string)
    ensures ParseMagnetLink(MagnetLink(id)) == Some(id)
  {
    assert MagnetLink(id)[|MagnetPrefix|..] == id;
  }

  /** Different songs get different links. */
  lemma MagnetLinkInjective(a: string, b: string)
    requires MagnetLink(a) == MagnetLink(b)
    ensures a == b
  {
    ParseMagnetLinkRoundTrip(a);
    ParseMagnetLinkRoundTrip(b);
  }

  /** `{...song, torrentUrl: magnet:?mocklink&${song.id}}`: only `torrentUrl` changes. */
  function WithMagnetLink(song: Song): (r: Song)
    ensures r.torrentUrl.Some? && r.torrentUrl.value != ""
    ensures ParseMagnetLink(r.torrentUrl.value) == Some(song.id)
    ensures r.(torrentUrl := song.torrentUrl) == song
  {
    ParseMagnetLinkRoundTrip(song.id);
    song.(torrentUrl := Some(MagnetLink(song.id)))
  }
}
