/** The Search page: `handleSearch` over the catalogue, and `handleDownload`. */
module SearchPage {

  import opened Text
  import opened Catalog
  import Seqs
  import JsMaps
  import TorrentDownloads

  /**
   * `handleSearch`: the new `searchResults`, given the current ones. A blank
   * query returns early; otherwise the query, untrimmed, filters the catalogue.
   */
  function HandleSearch(query: string, results: seq<Song>, catalog: seq<Song>): (r: seq<Song>)
    ensures Trim(query) == "" ==> r == results
    ensures Trim(query) != "" ==> |r| <= |catalog|
    ensures Trim(query) != "" ==> forall i :: 0 <= i < |r| ==> r[i] in catalog && Matches(r[i], query)
    ensures Trim(query) != "" ==> forall i :: 0 <= i < |catalog| && Matches(catalog[i], query) ==> catalog[i] in r
  {
    if Trim(query) == "" then results else FilterByQuery(catalog, query)
  }

  /** A query of white space only leaves the results as they were. */
  lemma BlankQueryKeepsResults(query: string, results: seq<Song>, catalog: seq<Song>)
    requires forall i :: 0 <= i < |query| ==> IsSpace(query[i])
    ensures HandleSearch(query, results, catalog) == results
  {

  }

  /** The results list songs in catalogue order. */
  lemma HandleSearchIsSubsequence(query: string, results: seq<Song>, catalog: seq<Song>)
    requires Trim(query) != ""
    ensures Seqs.Subsequence(HandleSearch(query, results, catalog), catalog)
  {
    FilterByQueryIsSubsequence(catalog, query);
  }

  /** Searching the results for the same query gives them back. */
  lemma HandleSearchIdempotent(query: string, results: seq<Song>, catalog: seq<Song>)
    requires Trim(query) != ""
    ensures var r := HandleSearch(query, results, catalog);
            HandleSearch(query, results, r) == r
  {
    FilterByQueryIdempotent(catalog, query);
  }

  /** `handleDownload`: the song goes to the download queue with its mock magnet link. */
  method HandleDownload(service: TorrentDownloads.TorrentService, song: Song)
    returns (sim: TorrentDownloads.DownloadSimulator?)
    requires service.Valid()
    modifies service
    ensures service.Valid()
    ensures song.id in service.downloads.entries
    ensures song.id in old(service.downloads.entries) ==> service.downloads == old(service.downloads) && sim == null
    ensures song.id !in old(service.downloads.entries) ==>
      && service.downloads == JsMaps.Set(old(service.downloads), song.id, TorrentDownloads.QueuedEntry(song.id))
      && sim != null && fresh(sim) && sim.songId == song.id
  {
    sim := service.DownloadSong(WithMagnetLink(song));
  }
}
