/**
 * The Streaming page: `filteredSongs`, the catalogue narrowed by the search
 * box (title and artist) and the selected genre, and the per-genre tabs
 * that narrow it again.
 */
module StreamingPage {

  import opened Text
  import Seqs

  /** An entry of `streamingSongs`. It has no album, so no album is searched. */
  datatype StreamingCatalogSong = StreamingCatalogSong(
    id: string,
    title: string,
    artist: string,
    albumArt: string,
    genre: string,
    duration: string)

  const AllGenres: string := "All"

  /** `genres`, in tab order; the first tab shows every genre. */
  const Genres: seq<string> := ["All", "Pop", "Rock", "Hip Hop", "Electronic", "Classical", "Jazz", "Country"]

  /** `matchesSearch && matchesGenre`. */
  function Passes(song: StreamingCatalogSong, term: string, genre: string): (r: bool)
    ensures r <==>
      && ((exists i :: OccursAt(ToLower(song.title), ToLower(term), i))
          || (exists i :: OccursAt(ToLower(song.artist), ToLower(term), i)))
      && (genre == AllGenres || song.genre == genre)
    ensures term == "" ==> (r <==> genre == AllGenres || song.genre == genre)
  {
    && (IncludesIgnoringCase(song.title, term) || IncludesIgnoringCase(song.artist, term))
    && (genre == AllGenres || song.genre == genre)
  }

  function PassesFn(term: string, genre: string): (p: StreamingCatalogSong -> bool)
    ensures forall s :: p(s) == Passes(s, term, genre)
  {
    (s: StreamingCatalogSong) => Passes(s, term, genre)
  }

  /** `filteredSongs`. */
  function FilteredSongs(songs: seq<StreamingCatalogSong>, term: string, genre: string): (r: seq<StreamingCatalogSong>)
    ensures |r| <= |songs|
    ensures forall i :: 0 <= i < |r| ==> r[i] in songs && Passes(r[i], term, genre)
    ensures forall i :: 0 <= i < |songs| && Passes(songs[i], term, genre) ==> songs[i] in r
    ensures genre != AllGenres ==> forall i :: 0 <= i < |r| ==> r[i].genre == genre
  {
    Seqs.Filter(PassesFn(term, genre), songs)
  }

  /** The filtered songs keep the catalogue's order. */
  lemma FilteredSongsIsSubsequence(songs: seq<StreamingCatalogSong>, term: string, genre: string)
    ensures Seqs.Subsequence(FilteredSongs(songs, term, genre), songs)
  {
    Seqs.FilterIsSubsequence(PassesFn(term, genre), songs);
  }

  /** An empty search box with "All" selected shows every song, in order. */
  lemma NoFilterKeepsAll(songs: seq<StreamingCatalogSong>)
    ensures FilteredSongs(songs, "", AllGenres) == songs
  {
    forall i | 0 <= i < |songs|
      ensures Passes(songs[i], "", AllGenres)
    {
      IncludesEmpty(ToLower(songs[i].title));
    }
    Seqs.FilterKeepsAll(PassesFn("", AllGenres), songs);
  }

  /** The genre tabs: every genre but "All". */
  function TabGenres(): (tabs: seq<string>)
    ensures AllGenres !in tabs
    ensures |tabs| == |Genres| - 1
    ensures forall i :: 0 <= i < |tabs| ==> tabs[i] == Genres[i + 1]
    ensures forall g :: g in Genres && g != AllGenres ==> g in tabs
  {
    Genres[1..]
  }

  function InTabFn(tab: string, selected: string): (p: StreamingCatalogSong -> bool)
    ensures forall s :: p(s) == (s.genre == tab || selected == AllGenres)
  {
    (s: StreamingCatalogSong) => s.genre == tab || selected == AllGenres
  }

  /** The songs a genre tab lists: `filteredSongs.filter(s => s.genre === genre || selectedGenre === "All")`. */
  function TabSongs(filtered: seq<StreamingCatalogSong>, tab: string, selected: string): (r: seq<StreamingCatalogSong>)
    ensures |r| <= |filtered|
    ensures forall i :: 0 <= i < |r| ==> r[i] in filtered
    ensures selected != AllGenres ==> forall i :: 0 <= i < |r| ==> r[i].genre == tab
    ensures forall i :: 0 <= i < |filtered| && filtered[i].genre == tab ==> filtered[i] in r
  {
    Seqs.Filter(InTabFn(tab, selected), filtered)
  }

  /** With "All" selected, every tab lists the whole filtered list. */
  lemma TabSongsWhenAll(filtered: seq<StreamingCatalogSong>, tab: string)
    ensures TabSongs(filtered, tab, AllGenres) == filtered
  {
    Seqs.FilterKeepsAll(InTabFn(tab, AllGenres), filtered);
  }

  /**
   * With a genre selected, its own tab lists the filtered songs and every
   * other tab lists none.
   */
  lemma TabSongsWhenGenre(songs: seq<StreamingCatalogSong>, term: string, selected: string, tab: string)
    requires selected != AllGenres
    ensures var filtered := FilteredSongs(songs, term, selected);
            TabSongs(filtered, tab, selected) == if tab == selected then filtered else []
  {
    var filtered := FilteredSongs(songs, term, selected);
    if tab == selected {
      Seqs.FilterKeepsAll(InTabFn(tab, selected), filtered);
    } else {
      Seqs.FilterNone(InTabFn(tab, selected), filtered);
    }
  }
}
