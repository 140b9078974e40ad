/**
 * The mock download queue of `TorrentService`: a `downloads` table with one
 * record per song, and for every song added a simulator whose interval
 * adds a random amount to its own `progress` and overwrites the song's
 * record. `Math.random()` is a parameter of each tick.
 */
module TorrentDownloads {

  import opened Wrappers
  import opened Text
  import JsMaps
  import Catalog

  type SongId = string

  datatype DownloadStatus = Queued | Downloading | Completed | Error

  /** One entry of the `downloads` table. */
  datatype DownloadProgress = DownloadProgress(
    songId: SongId,
    progress: real,
    status: DownloadStatus,
    error: Option<string>)

  const ConnectionLost: string := "Connection lost"

  /** Each tick adds `Math.random() * MaxIncrement`. */
  const MaxIncrement: real := 5.0

  /** A tick fails when its second random number is below this... */
  const ErrorChance: real := 0.02

  /** ...and the progress is still below this. */
  const ErrorCeiling: real := 90.0

  /** The records the queue can hold. */
  ghost predicate WellFormed(e: DownloadProgress) {
    && (e.status == Queued ==> e.progress == 0.0 && e.error == None)
    && (e.status == Downloading ==> 0.0 <= e.progress < 100.0 && e.error == None)
    && (e.status == Completed ==> e.progress == 100.0 && e.error == None)
    && (e.status == Error ==> 0.0 <= e.progress < ErrorCeiling && e.error == Some(ConnectionLost))
  }

  /** The record `downloadSong` inserts. */
  function QueuedEntry(id: SongId): (e: DownloadProgress)
    ensures WellFormed(e) && e.songId == id && e.status == Queued && e.progress == 0.0
  {
    DownloadProgress(id, 0.0, Queued, None)
  }

  /**
   * The record one tick leaves in the table, from the simulator's progress
   * before the tick, the increment and the error roll. Its `progress` is
   * also the simulator's progress afterwards.
   */
  function TickEntry(id: SongId, progress: real, inc: real, errRoll: real): (e: DownloadProgress)
    requires 0.0 <= progress < 100.0 && 0.0 <= inc < MaxIncrement
    ensures e.songId == id && WellFormed(e) && e.status != Queued
    ensures progress <= e.progress <= 100.0
    ensures e.status == Completed <==> progress + inc >= 100.0
    ensures e.status == Error <==> errRoll < ErrorChance && progress + inc < ErrorCeiling
    ensures e.status != Completed ==> e.progress == progress + inc
  {
    var p := progress + inc;
    if p >= 100.0 then DownloadProgress(id, 100.0, Completed, None)
    else if errRoll < ErrorChance && p < ErrorCeiling then DownloadProgress(id, p, Error, Some(ConnectionLost))
    else DownloadProgress(id, p, Downloading, None)
  }

  /** The random numbers one tick draws: the increment factor and the error roll. */
  datatype Roll = Roll(inc: real, errRoll: real)

  predicate RollsInRange(rolls: seq<Roll>) {
    forall i :: 0 <= i < |rolls| ==> 0.0 <= rolls[i].inc < MaxIncrement && 0.0 <= rolls[i].errRoll < 1.0
  }

  /**
   * The records one simulator writes, tick after tick, starting from
   * `progress`; it stops after the first tick that completes or fails.
   */
  function Run(id: SongId, progress: real, rolls: seq<Roll>): (w: seq<DownloadProgress>)
    requires 0.0 <= progress < 100.0 && RollsInRange(rolls)
    ensures |w| <= |rolls|
    ensures forall i :: 0 <= i < |w| ==> w[i].songId == id && WellFormed(w[i]) && w[i].status != Queued
    ensures forall i :: 0 <= i < |w| ==> progress <= w[i].progress
    ensures forall i, j :: 0 <= i < j < |w| ==> w[i].progress <= w[j].progress
    ensures forall i :: 0 <= i < |w| - 1 ==> w[i].status == Downloading
    ensures |w| < |rolls| ==> w != [] && w[|w| - 1].status != Downloading
    decreases |rolls|
  {
    if rolls == [] then []
    else
      var e := TickEntry(id, progress, rolls[0].inc, rolls[0].errRoll);
      if e.status == Downloading then [e] + Run(id, e.progress, rolls[1..]) else [e]
  }

  /** Once a run writes `completed`, it writes nothing more, so it never reports an error after it. */
  lemma CompletedIsLast(id: SongId, progress: real, rolls: seq<Roll>, i: nat)
    requires 0.0 <= progress < 100.0 && RollsInRange(rolls)
    requires i < |Run(id, progress, rolls)| && Run(id, progress, rolls)[i].status == Completed
    ensures i == |Run(id, progress, rolls)| - 1
  {
  }

  /** One interval of `simulateDownloadProgress`, created by `downloadSong`. */
  class DownloadSimulator {
    const songId: SongId
    /** The closure's `progress`. */
    var progress: real
    /** The interval has not been cleared. */
    var running: bool

    ghost predicate Valid()
      reads this
    {
      0.0 <= progress <= 100.0 && (running ==> progress < 100.0)
    }

    constructor (id: SongId)
      ensures Valid() && songId == id && progress == 0.0 && running
    {
      songId := id;
      progress := 0.0;
      running := true;
    }

    /**
     * One tick. It writes the record without checking that the song is still
     * in the table, so a tick after `cancelDownload` puts it back.
     */
    method Tick(service: TorrentService, inc: real, errRoll: real)
      requires Valid() && service.Valid() && 0.0 <= inc < MaxIncrement
      modifies this, service
      ensures Valid() && service.Valid()
      ensures !old(running) ==> progress == old(progress) && !running && service.downloads == old(service.downloads)
      ensures old(running) ==>
        var e := TickEntry(songId, old(progress), inc, errRoll);
        && progress == e.progress
        && running == (e.status == Downloading)
        && service.downloads == JsMaps.Set(old(service.downloads), songId, e)
    {
      if !running {
        return;
      }
      ghost var before := service.downloads;
      progress := progress + inc;
      if progress >= 100.0 {
        progress := 100.0;
        service.downloads := JsMaps.Set(service.downloads, songId, DownloadProgress(songId, progress, Completed, None));
        running := false;
      } else {
        service.downloads := JsMaps.Set(service.downloads, songId, DownloadProgress(songId, progress, Downloading, None));
      }
      if errRoll < ErrorChance && progress < ErrorCeiling {
        JsMaps.SetSet(before, songId, DownloadProgress(songId, progress, Downloading, None),
          DownloadProgress(songId, progress, Error, Some(ConnectionLost)));
        service.downloads := JsMaps.Set(service.downloads, songId, DownloadProgress(songId, progress, Error, Some(ConnectionLost)));
        running := false;
      }
    }
  }

  class TorrentService {
    /** `downloads`. */
    var downloads: JsMaps.JsMap<SongId, DownloadProgress>

    ghost predicate Valid()
      reads this
    {
      && JsMaps.Valid(downloads)
      && forall id :: id in downloads.entries ==> downloads.entries[id].songId == id && WellFormed(downloads.entries[id])
    }

    constructor ()
      ensures Valid() && downloads == JsMaps.Empty()
    {
      downloads := JsMaps.Empty();
    }

    /** `downloadSong`: queue the song unless it has no torrent link or is already queued. */
    method DownloadSong(song: Catalog.Song) returns (sim: DownloadSimulator?)
      requires Valid()
      modifies this`downloads
      ensures Valid()
      ensures !Truthy(song.torrentUrl) ==> downloads == old(downloads) && sim == null
      ensures Truthy(song.torrentUrl) && song.id in old(downloads.entries) ==>
        downloads == old(downloads) && sim == null
      ensures Truthy(song.torrentUrl) && song.id !in old(downloads.entries) ==>
        && downloads == JsMaps.Set(old(downloads), song.id, QueuedEntry(song.id))
        && sim != null && fresh(sim) && sim.Valid()
        && sim.songId == song.id && sim.progress == 0.0 && sim.running
    {
      if !Truthy(song.torrentUrl) {
        return null;
      }
      if song.id in downloads.entries {
        return null;
      }
      downloads := JsMaps.Set(downloads, song.id, QueuedEntry(song.id));
      sim := new DownloadSimulator(song.id);
    }

    /** `getDownloadProgress`. */
    function GetDownloadProgress(id: SongId): (r: Option<DownloadProgress>)
      requires Valid()
      reads this
      ensures r.Some? <==> id in downloads.entries
      ensures r.Some? ==> r.value == downloads.entries[id]
      ensures r.Some? ==> r.value.songId == id && WellFormed(r.value)
    {
      JsMaps.Get(downloads, id)
    }

    /** `getAllDownloads`: the records in the order their songs were first added. */
    function GetAllDownloads(): (r: seq<DownloadProgress>)
      requires Valid()
      reads this
      ensures |r| == |downloads.order|
      ensures forall i :: 0 <= i < |r| ==> downloads.order[i] in downloads.entries && r[i] == downloads.entries[downloads.order[i]]
      ensures forall i :: 0 <= i < |r| ==> r[i].songId == downloads.order[i] && WellFormed(r[i])
    {
      JsMaps.Values(downloads)
    }

    /** `cancelDownload`: remove the song's record if there is one. */
    method CancelDownload(id: SongId)
      requires Valid()
      modifies this`downloads
      ensures Valid()
      ensures downloads == JsMaps.Delete(old(downloads), id)
      ensures id !in old(downloads.entries) ==> downloads == old(downloads)
    {
      if id in downloads.entries {
        downloads := JsMaps.Delete(downloads, id);
      }
    }
  }

  /** A tick that runs after `cancelDownload` puts the song back into the table. */
  method TickAfterCancel(song: Catalog.Song, inc: real) returns (present: bool, entry: Option<DownloadProgress>)
    requires Truthy(song.torrentUrl) && 0.0 <= inc < MaxIncrement
    ensures present
    ensures entry == Some(DownloadProgress(song.id, inc, Downloading, None))
  {
    var service := new TorrentService();
    var sim := service.DownloadSong(song);
    service.CancelDownload(song.id);
    sim.Tick(service, inc, 0.5);
    entry := service.GetDownloadProgress(song.id);
    present := entry.Some?;
  }
}
