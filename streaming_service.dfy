/**
 * The torrent streaming session table of `TorrentStreamingService`: one
 * progress record per song in `streams`, the torrent started for it in
 * `torrents`, driven by `streamSong` and by the engine's events.
 *
 * The WebTorrent client is not modelled as code. Its torrents are handles
 * (`TorrentId`); `live` is what the client currently holds; its events are
 * methods that receive the values the engine would report.
 */
module TorrentStreaming {

  import opened Wrappers
  import opened Text
  import JsMaps

  type SongId = string

  /** Handle of a torrent added to the engine's client. */
  type TorrentId = nat

  /** The song fields `streamSong` reads. */
  datatype StreamingSong = StreamingSong(
    id: SongId,
    title: string,
    artist: string,
    albumArt: string,
    magnetUrl: Option<string>,
    torrentUrl: Option<string>)

  datatype StreamStatus = Connecting | Downloading | Ready | Streaming | Error

  /** One entry of the `streams` table. */
  datatype StreamProgress = StreamProgress(
    songId: SongId,
    progress: int,
    downloadSpeed: real,
    uploadSpeed: real,
    peers: nat,
    status: StreamStatus,
    streamUrl: Option<string>,
    error: Option<string>)

  /** A file of a ready torrent: its length in bytes and the URL the engine serves it under. */
  datatype TorrentFile = TorrentFile(length: nat, streamUrl: string)

  /** A torrent held by the engine: the song whose handlers it drives, and the URI it was added with. */
  datatype Torrent = Torrent(songId: SongId, uri: string)

  /** How `streamSong`'s promise stands when the call returns. */
  datatype StreamStart =
    | Rejected(message: string)
    | Resolved(url: string)
    | Pending(torrent: TorrentId)

  /** The outcome of the torrent's `ready` handler. */
  datatype ReadyOutcome = ReadyResolved(url: string) | ReadyThrew

  /** Completion above this fraction reports the song as `streaming`. */
  const StreamingThreshold: real := 0.1

  const TimeoutMessage: string := "Connection timeout"

  /** What the engine's client throws when a torrent is added after it was destroyed. */
  const ClientDestroyedMessage: string := "client is destroyed"

  function NoLinkMessage(title: string): string {
    "No torrent link available for \"" + title + "\""
  }

  /** `song.magnetUrl || song.torrentUrl`, or `None` when `streamSong` rejects the song. */
  function LocatorOf(song: StreamingSong): (uri: Option<string>)
    ensures uri.None? <==> !Truthy(song.magnetUrl) && !Truthy(song.torrentUrl)
    ensures Truthy(song.magnetUrl) ==> uri == song.magnetUrl
    ensures !Truthy(song.magnetUrl) && Truthy(song.torrentUrl) ==> uri == song.torrentUrl
    ensures uri.Some? ==> uri.value != ""
  {
    if Truthy(song.magnetUrl) then song.magnetUrl
    else if Truthy(song.torrentUrl) then song.torrentUrl
    else None
  }

  /** The entry has a stream URL: the test `existing && existing.streamUrl`. */
  function HasStreamUrl(m: JsMaps.JsMap<SongId, StreamProgress>, id: SongId): (r: bool)
    ensures r <==> JsMaps.Get(m, id).Some? && Truthy(JsMaps.Get(m, id).value.streamUrl)
    ensures r ==> id in m.entries
  {
    id in m.entries && Truthy(m.entries[id].streamUrl)
  }

  /** The shapes the entries of `streams` can take. */
  ghost predicate WellFormed(e: StreamProgress) {
    && 0 <= e.progress <= 100
    && e.downloadSpeed >= 0.0 && e.uploadSpeed >= 0.0
    && (e.status == Connecting ==> e.progress == 0 && e.streamUrl == None && e.error == None)
    && (e.status == Ready ==> e.progress == 0 && e.streamUrl.Some? && e.error == None)
    && (e.status == Error ==> e.progress == 0 && e.streamUrl == None && e.error.Some?)
  }

  /** The record `streamSong` writes before adding the torrent. */
  function ConnectingEntry(id: SongId): (e: StreamProgress)
    ensures WellFormed(e) && e.songId == id && e.status == Connecting
    ensures e.progress == 0 && e.peers == 0 && e.downloadSpeed == 0.0 && e.uploadSpeed == 0.0
  {
    StreamProgress(id, 0, 0.0, 0.0, 0, Connecting, None, None)
  }

  /** The record the `ready` handler writes: progress back to 0, the file's URL and the torrent's figures. */
  function ReadyEntry(id: SongId, url: string, down: real, up: real, peers: nat): (e: StreamProgress)
    requires down >= 0.0 && up >= 0.0
    ensures WellFormed(e) && e.songId == id && e.status == Ready
    ensures e.progress == 0 && e.streamUrl == Some(url) && e.error == None
    ensures e.downloadSpeed == down && e.uploadSpeed == up && e.peers == peers
  {
    StreamProgress(id, 0, down, up, peers, Ready, Some(url), None)
  }

  /** `handleError`'s record: every counter 0, the message, and no stream URL. */
  function ErrorEntry(id: SongId, message: string): (e: StreamProgress)
    ensures WellFormed(e) && e.songId == id && e.status == Error
    ensures e.error == Some(message) && e.streamUrl == None && !Truthy(e.streamUrl)
    ensures e.progress == 0 && e.peers == 0 && e.downloadSpeed == 0.0 && e.uploadSpeed == 0.0
  {
    StreamProgress(id, 0, 0.0, 0.0, 0, Error, None, Some(message))
  }

  /** `Math.round(fraction * 100)`; JavaScript rounds halves up. */
  function RoundPercent(fraction: real): (p: int)
    ensures fraction * 100.0 - 0.5 < p as real <= fraction * 100.0 + 0.5
    ensures 0.0 <= fraction <= 1.0 ==> 0 <= p <= 100
  {
    (fraction * 100.0 + 0.5).Floor
  }

  /** More completion never shows as less progress. */
  lemma RoundPercentMonotone(a: real, b: real)
    requires a <= b
    ensures RoundPercent(a) <= RoundPercent(b)
  {
  }

  /** `updateProgress`'s record: the old entry with the engine's figures spread over it. */
  function Progressed(current: StreamProgress, fraction: real, down: real, up: real, peers: nat): (e: StreamProgress)
    ensures e.songId == current.songId && e.streamUrl == current.streamUrl && e.error == current.error
    ensures e.progress == RoundPercent(fraction)
    ensures e.status == Streaming <==> fraction > StreamingThreshold
    ensures e.status == Downloading <==> fraction <= StreamingThreshold
    ensures e.downloadSpeed == down && e.uploadSpeed == up && e.peers == peers
    ensures 0.0 <= fraction <= 1.0 && down >= 0.0 && up >= 0.0 ==> WellFormed(e)
  {
    current.(
      progress := RoundPercent(fraction),
      downloadSpeed := down,
      uploadSpeed := up,
      peers := peers,
      status := if fraction > StreamingThreshold then Streaming else Downloading)
  }

  // ---------------------------------------------------------------------------
  // Choice of the file to stream: `files.reduce((largest, file) =>
  // file.length > largest.length ? file : largest)`
  // ---------------------------------------------------------------------------

  /** `f` is the first of the longest files. */
  predicate IsFirstLargest(files: seq<TorrentFile>, f: nat) {
    && f < |files|
    && (forall j :: 0 <= j < |files| ==> files[j].length <= files[f].length)
    && (forall j :: 0 <= j < f ==> files[j].length < files[f].length)
  }

  /** The reduction from position `i` on, with `acc` the file kept so far. */
  function ReduceLargest(files: seq<TorrentFile>, acc: nat, i: nat): (f: nat)
    requires acc < i <= |files|
    requires forall j :: 0 <= j < i ==> files[j].length <= files[acc].length
    requires forall j :: 0 <= j < acc ==> files[j].length < files[acc].length
    ensures IsFirstLargest(files, f)
    decreases |files| - i
  {
    if i == |files| then acc
    else ReduceLargest(files, if files[i].length > files[acc].length then i else acc, i + 1)
  }

  /**
   * The file the `ready` handler streams; `None` for an empty file list, on
   * which `reduce` without an initial value throws.
   */
  function SelectFile(files: seq<TorrentFile>): (f: Option<nat>)
    ensures f.None? <==> files == []
    ensures f.Some? ==> IsFirstLargest(files, f.value)
  {
    if files == [] then None else Some(ReduceLargest(files, 0, 1))
  }

  /** Only one file is the first of the longest, so the choice is determined. */
  lemma FirstLargestUnique(files: seq<TorrentFile>, f: nat, g: nat)
    requires IsFirstLargest(files, f) && IsFirstLargest(files, g)
    ensures f == g
  {
    assert files[f].length == files[g].length;
  }

  /** Three files of 10, 500 and 20 bytes: the 500-byte one is streamed. */
  lemma SelectFileExample(u: string, v: string, w: string)
    ensures SelectFile([TorrentFile(10, u), TorrentFile(500, v), TorrentFile(20, w)]) == Some(1)
  {
    var files := [TorrentFile(10, u), TorrentFile(500, v), TorrentFile(20, w)];
    assert IsFirstLargest(files, 1);
    FirstLargestUnique(files, 1, SelectFile(files).value);
  }

  /** Equal lengths: the earlier file wins, since `>` is strict. */
  lemma SelectFileTie(u: string, v: string, n: nat)
    ensures SelectFile([TorrentFile(n, u), TorrentFile(n, v)]) == Some(0)
  {
  }

  // ---------------------------------------------------------------------------
  // The service
  // ---------------------------------------------------------------------------

  class StreamingService {
    /** `streams`: the progress record of each song. */
    var streams: JsMaps.JsMap<SongId, StreamProgress>
    /** `torrents`: the torrent last started for each song. */
    var torrents: JsMaps.JsMap<SongId, TorrentId>
    /** The torrents the engine's client holds. */
    var live: map<TorrentId, Torrent>
    /** The handle the next added torrent gets. */
    var nextTorrent: TorrentId
    /** `cleanup` destroyed the client. */
    var clientDestroyed: bool
    /** The 30-second timers armed by `streamSong` that have not fired yet, by song. */
    var timers: multiset<SongId>

    ghost predicate Valid()
      reads this
    {
      && JsMaps.Valid(streams) && JsMaps.Valid(torrents)
      && (forall id :: id in streams.entries ==> streams.entries[id].songId == id && WellFormed(streams.entries[id]))
      && (forall id :: id in torrents.entries ==> id in streams.entries && torrents.entries[id] < nextTorrent)
      && (forall t :: t in live ==> t < nextTorrent)
      && (clientDestroyed ==> live == map[])
    }

    constructor ()
      ensures Valid()
      ensures streams == JsMaps.Empty() && torrents == JsMaps.Empty()
      ensures live == map[] && nextTorrent == 0 && timers == multiset{} && !clientDestroyed
    {
      streams := JsMaps.Empty();
      torrents := JsMaps.Empty();
      live := map[];
      nextTorrent := 0;
      clientDestroyed := false;
      timers := multiset{};
    }

    /** `streamSong`, up to the point where it waits for the engine. */
    method StreamSong(song: StreamingSong) returns (r: StreamStart)
      requires Valid()
      modifies this
      ensures Valid()
      ensures clientDestroyed == old(clientDestroyed)
      ensures LocatorOf(song).None? ==>
        r == Rejected(NoLinkMessage(song.title)) && unchanged(this)
      ensures LocatorOf(song).Some? && HasStreamUrl(old(streams), song.id) ==>
        r == Resolved(old(streams).entries[song.id].streamUrl.value) && unchanged(this)
      ensures LocatorOf(song).Some? && !HasStreamUrl(old(streams), song.id) ==>
        streams == JsMaps.Set(old(streams), song.id, ConnectingEntry(song.id))
      ensures LocatorOf(song).Some? && !HasStreamUrl(old(streams), song.id) && old(clientDestroyed) ==>
        && r == Rejected(ClientDestroyedMessage)
        && torrents == old(torrents) && live == old(live)
        && nextTorrent == old(nextTorrent) && timers == old(timers)
      ensures LocatorOf(song).Some? && !HasStreamUrl(old(streams), song.id) && !old(clientDestroyed) ==>
        && r == Pending(old(nextTorrent))
        && old(nextTorrent) !in old(live)
        && live == old(live)[old(nextTorrent) := Torrent(song.id, LocatorOf(song).value)]
        && torrents == JsMaps.Set(old(torrents), song.id, old(nextTorrent))
        && nextTorrent == old(nextTorrent) + 1
        && timers == old(timers) + multiset{song.id}
    {
      var uri := LocatorOf(song);
      if uri.None? {
        return Rejected(NoLinkMessage(song.title));
      }
      if HasStreamUrl(streams, song.id) {
        return Resolved(streams.entries[song.id].streamUrl.value);
      }
      streams := JsMaps.Set(streams, song.id, ConnectingEntry(song.id));
      if clientDestroyed {
        return Rejected(ClientDestroyedMessage);
      }
      var t := nextTorrent;
      live := live[t := Torrent(song.id, uri.value)];
      nextTorrent := nextTorrent + 1;
      torrents := JsMaps.Set(torrents, song.id, t);
      timers := timers + multiset{song.id};
      r := Pending(t);
    }

    /** The torrent's `ready` handler: stream the largest file. */
    method OnReady(t: TorrentId, files: seq<TorrentFile>, down: real, up: real, peers: nat) returns (r: ReadyOutcome)
      requires Valid() && t in live && down >= 0.0 && up >= 0.0
      modifies this`streams
      ensures Valid()
      ensures files == [] ==> r == ReadyThrew && streams == old(streams)
      ensures files != [] ==>
        var url := files[SelectFile(files).value].streamUrl;
        && r == ReadyResolved(url)
        && streams == JsMaps.Set(old(streams), live[t].songId, ReadyEntry(live[t].songId, url, down, up, peers))
    {
      var f := SelectFile(files);
      if f.None? {
        return ReadyThrew;
      }
      var id := live[t].songId;
      var url := files[f.value].streamUrl;
      streams := JsMaps.Set(streams, id, ReadyEntry(id, url, down, up, peers));
      r := ReadyResolved(url);
    }

    /** The torrent's `download` and `upload` handlers: `updateProgress`. */
    method OnProgress(t: TorrentId, fraction: real, down: real, up: real, peers: nat)
      requires Valid() && t in live
      requires 0.0 <= fraction <= 1.0 && down >= 0.0 && up >= 0.0
      modifies this`streams
      ensures Valid()
      ensures var id := live[t].songId;
        streams == if id in old(streams).entries
                   then JsMaps.Set(old(streams), id, Progressed(old(streams).entries[id], fraction, down, up, peers))
                   else old(streams)
    {
      var id := live[t].songId;
      var current := JsMaps.Get(streams, id);
      if current.Some? {
        streams := JsMaps.Set(streams, id, Progressed(current.value, fraction, down, up, peers));
      }
    }

    /** The torrent's `error` handler. The engine has already dropped the torrent. */
    method OnError(t: TorrentId, message: string) returns (rejection: string)
      requires Valid() && t in live
      modifies this`streams, this`live
      ensures Valid()
      ensures rejection == message
      ensures streams == JsMaps.Set(old(streams), old(live)[t].songId, ErrorEntry(old(live)[t].songId, message))
      ensures live == old(live) - {t}
    {
      var id := live[t].songId;
      HandleError(id, message);
      live := live - {t};
      rejection := message;
    }

    /** The 30-second timer: an error, unless the entry has a stream URL by then. */
    method OnTimeout(id: SongId) returns (timedOut: bool)
      requires Valid() && id in timers
      modifies this`streams, this`timers
      ensures Valid()
      ensures timers == old(timers) - multiset{id}
      ensures timedOut <==> !HasStreamUrl(old(streams), id)
      ensures streams == if timedOut then JsMaps.Set(old(streams), id, ErrorEntry(id, TimeoutMessage)) else old(streams)
    {
      timers := timers - multiset{id};
      timedOut := !HasStreamUrl(streams, id);
      if timedOut {
        HandleError(id, TimeoutMessage);
      }
    }

    /** `handleError`: the entry is replaced, whether or not there was one. */
    method HandleError(id: SongId, message: string)
      requires Valid()
      modifies this`streams
      ensures Valid()
      ensures streams == JsMaps.Set(old(streams), id, ErrorEntry(id, message))
    {
      streams := JsMaps.Set(streams, id, ErrorEntry(id, message));
    }

    /** `getStreamProgress`. */
    function GetStreamProgress(id: SongId): (r: Option<StreamProgress>)
      requires Valid()
      reads this
      ensures r.Some? <==> id in streams.entries
      ensures r.Some? ==> r.value == streams.entries[id]
      ensures r.Some? ==> r.value.songId == id && WellFormed(r.value)
    {
      JsMaps.Get(streams, id)
    }

    /** `getAllStreams`: the entries in the order their songs were first added. */
    function GetAllStreams(): (r: seq<StreamProgress>)
      requires Valid()
      reads this
      ensures |r| == |streams.order|
      ensures forall i :: 0 <= i < |r| ==> streams.order[i] in streams.entries && r[i] == streams.entries[streams.order[i]]
      ensures forall i :: 0 <= i < |r| ==> r[i].songId == streams.order[i] && WellFormed(r[i])
    {
      JsMaps.Values(streams)
    }

    /** `stopStream`: destroy the song's torrent, forget it and its entry. */
    method StopStream(id: SongId)
      requires Valid()
      modifies this`streams, this`torrents, this`live
      ensures Valid()
      ensures streams == JsMaps.Delete(old(streams), id)
      ensures torrents == JsMaps.Delete(old(torrents), id)
      ensures live == if id in old(torrents).entries then old(live) - {old(torrents).entries[id]} else old(live)
    {
      var t := JsMaps.Get(torrents, id);
      if t.Some? {
        live := live - {t.value};
        torrents := JsMaps.Delete(torrents, id);
      }
      streams := JsMaps.Delete(streams, id);
    }

    /**
     * `cleanup`: destroy the client and empty both tables. A second call
     * throws from the client's `destroy` before the tables are cleared.
     */
    method Cleanup() returns (threw: bool)
      requires Valid()
      modifies this`streams, this`torrents, this`live, this`clientDestroyed
      ensures Valid()
      ensures threw <==> old(clientDestroyed)
      ensures threw ==> unchanged(this)
      ensures !threw ==> streams == JsMaps.Empty() && torrents == JsMaps.Empty() && live == map[] && clientDestroyed
    {
      if clientDestroyed {
        return true;
      }
      threw := false;
      clientDestroyed := true;
      live := map[];
      streams := JsMaps.Empty();
      torrents := JsMaps.Empty();
    }
  }

  // ---------------------------------------------------------------------------
  // Runs of the service, each on a fresh instance
  // ---------------------------------------------------------------------------

  /**
   * Streaming a song again while its first torrent is still connecting adds a
   * second torrent: `torrents` forgets the first, but the client keeps it.
   */
  method RestreamWhileConnecting(song: StreamingSong) returns (first: StreamStart, second: StreamStart, firstStillLive: bool, tracked: Option<TorrentId>)
    requires LocatorOf(song).Some?
    ensures first == Pending(0) && second == Pending(1)
    ensures firstStillLive
    ensures tracked == Some(1)
  {
    var s := new StreamingService();
    first := s.StreamSong(song);
    assert s.streams == JsMaps.Set(JsMaps.Empty(), song.id, ConnectingEntry(song.id));
    JsMaps.GetSet(JsMaps.Empty(), song.id, ConnectingEntry(song.id), song.id);
    assert !HasStreamUrl(s.streams, song.id);
    second := s.StreamSong(song);
    firstStillLive := 0 in s.live;
    tracked := JsMaps.Get(s.torrents, song.id);
  }

  /** A song whose torrent became ready before the timer fired is not timed out. */
  method ReadyBeforeTimeout(song: StreamingSong, url: string) returns (timedOut: bool, entry: Option<StreamProgress>)
    requires LocatorOf(song).Some? && url != ""
    ensures !timedOut
    ensures entry == Some(ReadyEntry(song.id, url, 0.0, 0.0, 0))
  {
    var s := new StreamingService();
    var start := s.StreamSong(song);
    var _ := s.OnReady(start.torrent, [TorrentFile(1000, url)], 0.0, 0.0, 0);
    timedOut := s.OnTimeout(song.id);
    entry := s.GetStreamProgress(song.id);
  }

  /**
   * `stopStream` does not clear the timer: when it fires, the stopped song's
   * entry comes back as a timeout error.
   */
  method TimeoutAfterStop(song: StreamingSong) returns (timedOut: bool, entry: Option<StreamProgress>)
    requires LocatorOf(song).Some?
    ensures timedOut
    ensures entry == Some(ErrorEntry(song.id, TimeoutMessage))
  {
    var s := new StreamingService();
    var _ := s.StreamSong(song);
    s.StopStream(song.id);
    timedOut := s.OnTimeout(song.id);
    entry := s.GetStreamProgress(song.id);
  }

  /**
   * A one-file torrent: ready, then 5% downloaded, then 15%. The status moves
   * from downloading to streaming once more than a tenth is there, and the
   * stream URL stays.
   */
  method ReadyThenProgress(song: StreamingSong, url: string) returns (atFive: Option<StreamProgress>, atFifteen: Option<StreamProgress>)
    requires LocatorOf(song).Some?
    ensures atFive.Some? && atFive.value.status == Downloading && atFive.value.progress == 5
    ensures atFifteen.Some? && atFifteen.value.status == Streaming && atFifteen.value.progress == 15
    ensures atFifteen.value.streamUrl == Some(url)
  {
    var s := new StreamingService();
    var start := s.StreamSong(song);
    var t := start.torrent;
    var _ := s.OnReady(t, [TorrentFile(1000, url)], 0.0, 0.0, 0);
    s.OnProgress(t, 0.05, 1000.0, 0.0, 3);
    atFive := s.GetStreamProgress(song.id);
    s.OnProgress(t, 0.15, 1000.0, 0.0, 3);
    atFifteen := s.GetStreamProgress(song.id);
  }
}
