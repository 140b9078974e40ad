/**
 * The Torrents page: the catalogue decorated with random swarm figures
 * (`popularTorrents`), `handleSearch`, which filters and decorates, and
 * `handleDownload`. Each decorated song draws four `Math.random()` values,
 * in the order seeders, leechers, size, quality; they are parameters here.
 */
module TorrentsPage {

  import opened Text
  import opened Catalog
  import Seqs
  import JsMaps
  import TorrentDownloads

  /** The four random numbers one song is decorated with. */
  datatype Rolls = Rolls(seeders: real, leechers: real, size: real, quality: real)

  /** Each number is what `Math.random()` returns: in [0, 1). */
  predicate RollsInRange(r: Rolls) {
    && 0.0 <= r.seeders < 1.0 && 0.0 <= r.leechers < 1.0
    && 0.0 <= r.size < 1.0 && 0.0 <= r.quality < 1.0
  }

  /**
   * `{...song, seeders, leechers, size, quality}`. The size is kept as the
   * number of megabytes rather than the `toFixed(1)` string.
   */
  datatype TorrentListing = TorrentListing(song: Song, seeders: int, leechers: int, sizeMb: real, quality: string)

  /** `Math.floor(x * 1000) + 50`. */
  function Seeders(x: real): (n: int)
    ensures 0.0 <= x < 1.0 ==> 50 <= n <= 1049
  {
    (x * 1000.0).Floor + 50
  }

  /** `Math.floor(x * 100) + 5`. */
  function Leechers(x: real): (n: int)
    ensures 0.0 <= x < 1.0 ==> 5 <= n <= 104
  {
    (x * 100.0).Floor + 5
  }

  /** `x * 10 + 2`, before formatting. */
  function SizeMb(x: real): (mb: real)
    ensures 0.0 <= x < 1.0 ==> 2.0 <= mb < 12.0
  {
    x * 10.0 + 2.0
  }

  /** `x > 0.5 ? "320 kbps" : "FLAC"`. */
  function Quality(x: real): (q: string)
    ensures q == "320 kbps" <==> x > 0.5
    ensures q == "FLAC" <==> x <= 0.5
  {
    if x > 0.5 then "320 kbps" else "FLAC"
  }

  function Decorate(song: Song, r: Rolls): (t: TorrentListing)
    ensures t.song == song
    ensures RollsInRange(r) ==> 50 <= t.seeders <= 1049 && 5 <= t.leechers <= 104 && 2.0 <= t.sizeMb < 12.0
    ensures t.quality == "320 kbps" <==> r.quality > 0.5
  {
    TorrentListing(song, Seeders(r.seeders), Leechers(r.leechers), SizeMb(r.size), Quality(r.quality))
  }

  /** `songs.map(decorate)`, song `i` using the `i`-th draw. */
  function DecorateAll(songs: seq<Song>, rolls: seq<Rolls>): (r: seq<TorrentListing>)
    requires |rolls| >= |songs|
    ensures |r| == |songs|
    ensures forall i :: 0 <= i < |r| ==> r[i].song == songs[i]
    ensures forall i :: 0 <= i < |r| && RollsInRange(rolls[i]) ==>
      50 <= r[i].seeders <= 1049 && 5 <= r[i].leechers <= 104 && 2.0 <= r[i].sizeMb < 12.0
    ensures forall i :: 0 <= i < |r| ==> (r[i].quality == "320 kbps" <==> rolls[i].quality > 0.5)
  {
    seq(|songs|, i requires 0 <= i < |songs| => Decorate(songs[i], rolls[i]))
  }

  /** The songs behind a list of listings. */
  function SongsOf(listings: seq<TorrentListing>): (songs: seq<Song>)
    ensures |songs| == |listings|
    ensures forall i :: 0 <= i < |songs| ==> songs[i] == listings[i].song
  {
    seq(|listings|, i requires 0 <= i < |listings| => listings[i].song)
  }

  /** Decorating keeps every song, its fields and the order: stripping the figures gives the list back. */
  lemma SongsOfDecorateAll(songs: seq<Song>, rolls: seq<Rolls>)
    requires |rolls| >= |songs|
    ensures SongsOf(DecorateAll(songs, rolls)) == songs
  {
  }

  /** `popularTorrents`: the whole catalogue, decorated. */
  function PopularTorrents(catalog: seq<Song>, rolls: seq<Rolls>): (r: seq<TorrentListing>)
    requires |rolls| >= |catalog|
    ensures SongsOf(r) == catalog
  {
    DecorateAll(catalog, rolls)
  }

  /** `handleSearch`: a blank query returns early; otherwise filter the catalogue, then decorate. */
  function HandleSearch(query: string, results: seq<TorrentListing>, catalog: seq<Song>, rolls: seq<Rolls>)
    : (r: seq<TorrentListing>)
    requires |rolls| >= |catalog|
    ensures Trim(query) == "" ==> r == results
    ensures Trim(query) != "" ==> SongsOf(r) == FilterByQuery(catalog, query)
  {
    if Trim(query) == "" then results else DecorateAll(FilterByQuery(catalog, query), rolls)
  }

  /** A query of white space only leaves the results as they were. */
  lemma BlankQueryKeepsResults(query: string, results: seq<TorrentListing>, catalog: seq<Song>, rolls: seq<Rolls>)
    requires |rolls| >= |catalog|
    requires forall i :: 0 <= i < |query| ==> IsSpace(query[i])
    ensures HandleSearch(query, results, catalog, rolls) == results
  {

  }

  /** The listed songs are exactly the matching ones, in catalogue order. */
  lemma HandleSearchSongs(query: string, results: seq<TorrentListing>, catalog: seq<Song>, rolls: seq<Rolls>)
    requires |rolls| >= |catalog| && Trim(query) != ""
    ensures var songs := SongsOf(HandleSearch(query, results, catalog, rolls));
      && Seqs.Subsequence(songs, catalog)
      && (forall i :: 0 <= i < |songs| ==> Matches(songs[i], query))
      && (forall i :: 0 <= i < |catalog| && Matches(catalog[i], query) ==> catalog[i] in songs)
  {
    FilterByQueryIsSubsequence(catalog, query);
  }

  /** `handleDownload`: the song goes to the download queue with its mock magnet link. */
  method HandleDownload(service: TorrentDownloads.TorrentService, song: Song)
    returns (sim: TorrentDownloads.DownloadSimulator?)
    requires service.Valid()
    modifies service
    ensures service.Valid()
    ensures song.id in service.downloads.entries
    ensures song.id in old(service.downloads.entries) ==> service.downloads == old(service.downloads) && sim == null
    ensures song.id !in old(service.downloads.entries) ==>
      && service.downloads == JsMaps.Set(old(service.downloads), song.id, TorrentDownloads.QueuedEntry(song.id))
      && sim != null && fresh(sim) && sim.songId == song.id
  {
    sim := service.DownloadSong(WithMagnetLink(song));
  }
}
