# Anik torrent streaming and downloads, modelled in Dafny

Anik is a music app. Songs come from a mock catalogue, are searched on two
pages and sent to a simulated torrent download queue, or are streamed
through a WebTorrent client. This project models the following in Dafny:

- **`TorrentStreamingService`** (`streaming_service.dfy`, module `TorrentStreaming`): the
  `streams` and `torrents` tables, `streamSong`, the torrent's `ready`,
  `download`/`upload`, `error` and timeout handlers, `stopStream` and `cleanup`.
  It is a class whose methods update those tables.
  - The WebTorrent client is represented by `live`, the torrents it holds.
  - The timers that have not fired yet are a multiset.
  - Each engine event is a method that receives the values the engine would report.
- **`TorrentService`** (`download_service.dfy`, module `TorrentDownloads`): the
  `downloads` table, and one `DownloadSimulator` object per interval of
  `simulateDownloadProgress`. `Math.random()` is a parameter of each tick.
- **The player bar** (`music_player.dfy`): `formatTime`, the elapsed time
  derived from `progress`, the 200 ms interval and `togglePlayPause`.
- **The pages** (`search_page.dfy`, `torrents_page.dfy`, `streaming_page.dfy`):
  the search filters, the random torrent figures, the genre tabs, and
  `handleDownload` with its mock magnet link (`catalog.dfy`).
- **JavaScript built-ins** the code relies on:
  - `Map`, with insertion order (`js_maps.dfy`)
  - `toLowerCase`, `includes`, `trim`, truthiness and number-to-string (`text.dfy`)
  - `Array.filter` (`seqs.dfy`)

The model follows the code, including these behaviours a reader might not
expect:

- `streamSong` does not reuse a session that is still connecting. It adds a second
  torrent and the client keeps the first one (`RestreamWhileConnecting`).
- There is no `stopped` status. `stopStream` deletes the entry.
- Its timer is not cleared, so a timeout afterwards writes an error entry
  back (`TimeoutAfterStop`).
- An `error` status is not final: a later `streamSong` replaces it.
- A torrent with no files does not report a "no playable file" error. `reduce`
  throws inside the `ready` handler, and the entry stays as it was (`ReadyThrew`).
- The `ready` handler resets `progress` to 0.
- A second `cleanup` throws from the client's `destroy` before it clears the tables. Whatever was written since the first call stays.
- `cancelDownload` does not stop the simulator's interval, so a later tick
  puts the song back (`TickAfterCancel`).
- A tick fails with probability 0.02, as the code draws it. The comment beside it says 10%.
- The search pages test the trimmed query for blankness, but filter with the
  untrimmed query.

## Model

| member | source | states |
|---|---|---|
| Text.LowerChar | src/pages/Search.tsx:27-29 | the lower-cased character is never upper case; other characters are unchanged |
| Text.TruthyCases | src/lib/torrentService.ts:20 | `undefined` and `""` are falsy; every other string is truthy |
| Text.ToLower | src/pages/Search.tsx:27-29 | same length, character by character lower-casing |
| Text.ToLowerIdempotent | src/pages/Search.tsx:27-29 | lower-casing twice is lower-casing once |
| Text.ToLowerAppend | src/pages/Search.tsx:27-29 | lower-casing distributes over concatenation |
| Text.Includes | src/pages/Search.tsx:27-29 | `includes` finds `sub` when `s` starts with it, and never when `sub` is longer than `s` |
| Text.IncludesIff | src/pages/Search.tsx:27-29 | `includes` holds exactly when the substring occurs at some position |
| Text.IncludesIgnoringCase | src/pages/Search.tsx:27-29 | the lower-cased substring occurs at some position of the lower-cased string; the empty substring always does |
| Text.IncludesEmpty | src/pages/Streaming.tsx:88-89 | every string includes the empty string |
| Text.TrimStart | src/pages/Search.tsx:19 | the result is a suffix that starts with a non-space; everything dropped is white space |
| Text.TrimEnd | src/pages/Search.tsx:19 | the result is a prefix that ends with a non-space; everything dropped is white space |
| Text.Trim | src/pages/Search.tsx:19 | the result neither starts nor ends with white space, and is empty exactly when every character is white space |
| Text.DigitChar | src/components/MusicPlayer.tsx:48 | a digit below 10 maps to a digit character |
| Text.DigitValue | src/components/MusicPlayer.tsx:48 | a digit character maps back to its value below 10 |
| Text.NatToString | src/components/MusicPlayer.tsx:48 | the decimal string is non-empty, all digits, one digit exactly below 10, and has no leading zero |
| Text.IntToString | src/components/MusicPlayer.tsx:48 | a non-negative integer prints as digits that read back as it, one digit below 10 and no leading zero from 10 on; a negative one as `-` and the digits of its magnitude |
| Text.DigitsValueOfNatToString | src/components/MusicPlayer.tsx:48 | the decimal string reads back as the number |
| Seqs.Filter | src/pages/Search.tsx:26-30 | the result is no longer than the input; it holds only passing input elements and every passing input element |
| Seqs.FilterIsSubsequence | src/pages/Search.tsx:26-30 | filtering keeps the input's order |
| Seqs.FilterKeepsAll | src/pages/Streaming.tsx:175 | when every element passes, the filter returns the input |
| Seqs.FilterIdempotent | src/pages/Search.tsx:26-30 | filtering twice with the same test is filtering once |
| Seqs.FilterFilter | src/pages/Streaming.tsx:175 | two filters in a row are one filter with both tests |
| Seqs.FilterAppend | src/pages/Search.tsx:26-30 | filtering distributes over concatenation |
| Seqs.FilterCount | src/pages/Search.tsx:26-30 | a passing element occurs in the result as often as in the input; a failing one not at all |
| JsMaps.Empty | src/lib/torrentStreamingService.ts:27-28 | an empty map is well formed and holds no key |
| JsMaps.Get | src/lib/torrentStreamingService.ts:46 | `get` finds a value exactly for present keys, and it is the stored one |
| JsMaps.Set | src/lib/torrentStreamingService.ts:53-60 | `set` keeps the map well formed and adds the key to the key set |
| JsMaps.Without | src/lib/torrentStreamingService.ts:143-145 | the order loses an entry exactly when the key was in it |
| JsMaps.WithoutMembers | src/lib/torrentStreamingService.ts:143-145 | the order without the key keeps every other key, drops the key, stays distinct, and is unchanged when the key is absent |
| JsMaps.Delete | src/lib/torrentStreamingService.ts:145 | `delete` keeps the map well formed, removes the key, and changes nothing for an absent key |
| JsMaps.Values | src/lib/torrentStreamingService.ts:134-136 | `values()` lists the values in the keys' insertion order |
| JsMaps.GetSet | src/lib/torrentStreamingService.ts:53-60 | after `set`, `get` returns the new value under the key and the old ones elsewhere |
| JsMaps.GetDelete | src/lib/torrentStreamingService.ts:139-147 | after `delete`, the key is absent and the other keys are unchanged |
| JsMaps.DeleteIdempotent | src/lib/torrentStreamingService.ts:139-147 | deleting twice is deleting once |
| JsMaps.SetSet | src/lib/torrentService.ts:68-95 | a second `set` of the same key overrides the first and keeps its place |
| JsMaps.ValuesSetNew | src/lib/torrentService.ts:50-52 | inserting a new key appends its value to `values()` |
| JsMaps.ValuesSetExisting | src/lib/torrentService.ts:50-52 | overwriting a present key changes `values()` only at its position |
| JsMaps.ValuesDelete | src/lib/torrentService.ts:55-60 | deleting a key removes exactly its value from `values()` |
| JsMaps.WithoutAt | src/lib/torrentService.ts:55-60 | removing a key from a distinct order cuts it out at its position |
| Catalog.FilterByQuery | src/pages/Search.tsx:26-30 | results are catalogue songs whose title, artist or album contains the query ignoring case, and every such song is included |
| Catalog.FilterByQueryIsSubsequence | src/pages/Search.tsx:26-30 | results keep catalogue order |
| Catalog.FilterByQueryIdempotent | src/pages/Search.tsx:26-30 | searching the results again with the same query changes nothing |
| Catalog.MatchesIgnoresQueryCase | src/pages/Search.tsx:27-29 | a query and its lower-case form match the same songs |
| Catalog.FilterByEmptyQuery | src/pages/Search.tsx:26-30 | the empty query keeps every song |
| Catalog.Matches | src/pages/Search.tsx:26-30 | a song matches exactly when the lower-cased query occurs at some position of its lower-cased title, artist or album; the empty query matches every song |
| Catalog.MagnetLink | src/pages/Search.tsx:41 | the link starts with `magnet:?mocklink&` followed by the id |
| Catalog.ParseMagnetLink | src/pages/Torrents.tsx:62 | a link is readable exactly when it has the mock prefix |
| Catalog.ParseMagnetLinkRoundTrip | src/pages/Search.tsx:41 | the link reads back as the song id it was built from |
| Catalog.MagnetLinkInjective | src/pages/Torrents.tsx:62 | different songs get different links |
| Catalog.WithMagnetLink | src/pages/Search.tsx:39-42 | the copy has a truthy `torrentUrl` naming the song, and every other field is unchanged |
| SearchPage.HandleSearch | src/pages/Search.tsx:16-35 | a blank query leaves the results; otherwise the results are exactly the matching catalogue songs |
| SearchPage.BlankQueryKeepsResults | src/pages/Search.tsx:19 | a query of white space only leaves the results as they were |
| SearchPage.HandleSearchIsSubsequence | src/pages/Search.tsx:26-32 | results keep catalogue order |
| SearchPage.HandleSearchIdempotent | src/pages/Search.tsx:26-32 | searching the results again for the same query gives them back |
| SearchPage.HandleDownload | src/pages/Search.tsx:37-43 | the song is in the download table afterwards, queued if it was new, with the table otherwise untouched |
| TorrentsPage.Seeders | src/pages/Torrents.tsx:23 | for a random number in [0, 1), seeders lie in 50..1049 |
| TorrentsPage.Leechers | src/pages/Torrents.tsx:24 | for a random number in [0, 1), leechers lie in 5..104 |
| TorrentsPage.SizeMb | src/pages/Torrents.tsx:25 | for a random number in [0, 1), the size lies in [2, 12) MB |
| TorrentsPage.Quality | src/pages/Torrents.tsx:26 | "320 kbps" exactly when the roll exceeds 0.5, "FLAC" otherwise |
| TorrentsPage.Decorate | src/pages/Torrents.tsx:21-27 | keeps the song; the figures lie in their ranges |
| TorrentsPage.DecorateAll | src/pages/Torrents.tsx:45-51 | one listing per song, in order, each with in-range figures |
| TorrentsPage.SongsOfDecorateAll | src/pages/Torrents.tsx:45-51 | taking the figures off the decorated list gives the songs back |
| TorrentsPage.PopularTorrents | src/pages/Torrents.tsx:21-27 | the listings are the whole catalogue, in order |
| TorrentsPage.HandleSearch | src/pages/Torrents.tsx:29-56 | a blank query leaves the results; otherwise the listed songs are the filtered catalogue |
| TorrentsPage.BlankQueryKeepsResults | src/pages/Torrents.tsx:32 | a query of white space only leaves the results |
| TorrentsPage.HandleSearchSongs | src/pages/Torrents.tsx:39-51 | listed songs all match, keep catalogue order, and include every matching song |
| TorrentsPage.HandleDownload | src/pages/Torrents.tsx:58-64 | the song is in the download table afterwards, queued if it was new |
| StreamingPage.FilteredSongs | src/pages/Streaming.tsx:87-92 | exactly the songs whose title or artist contains the term and whose genre is the selected one (any genre under "All") |
| StreamingPage.Passes | src/pages/Streaming.tsx:87-92 | the lower-cased term occurs in the lower-cased title or artist, and the genre is the selected one unless "All"; an empty term leaves only the genre test |
| StreamingPage.FilteredSongsIsSubsequence | src/pages/Streaming.tsx:87-92 | the filtered songs keep catalogue order |
| StreamingPage.NoFilterKeepsAll | src/pages/Streaming.tsx:83-92 | the initial state (empty term, "All") shows every song |
| StreamingPage.TabGenres | src/pages/Streaming.tsx:171 | the tabs are the genres after "All", in order: every other genre has a tab and "All" has none |
| StreamingPage.TabSongs | src/pages/Streaming.tsx:175 | a tab lists filtered songs only, all of its genre when a genre is selected, and every filtered song of its genre |
| StreamingPage.TabSongsWhenAll | src/pages/Streaming.tsx:175 | with "All" selected every tab shows the whole filtered list |
| StreamingPage.TabSongsWhenGenre | src/pages/Streaming.tsx:87-92 | with a genre selected its tab shows the filtered list and every other tab shows none |
| TorrentStreaming.LocatorOf | src/lib/torrentStreamingService.ts:38-43 | no locator exactly when neither link is truthy; the magnet link wins over the torrent URL |
| TorrentStreaming.HasStreamUrl | src/lib/torrentStreamingService.ts:46-47 | `get` finds an entry for the song and its `streamUrl` is truthy |
| TorrentStreaming.ConnectingEntry | src/lib/torrentStreamingService.ts:53-60 | a well-formed connecting record with every counter 0 |
| TorrentStreaming.ReadyEntry | src/lib/torrentStreamingService.ts:85-93 | a well-formed ready record with progress 0, the file's URL, and the torrent's download speed, upload speed and peer count |
| TorrentStreaming.ErrorEntry | src/lib/torrentStreamingService.ts:165-176 | a well-formed error record with the message, counters 0 and no stream URL |
| TorrentStreaming.RoundPercent | src/lib/torrentStreamingService.ts:155 | within a half of the percentage, and 0..100 for a fraction in [0, 1] |
| TorrentStreaming.RoundPercentMonotone | src/lib/torrentStreamingService.ts:155 | more completion never shows less progress |
| TorrentStreaming.Progressed | src/lib/torrentStreamingService.ts:150-162 | keeps id, URL and error; status is streaming exactly above a tenth, otherwise downloading; the record stays well formed |
| TorrentStreaming.ReduceLargest | src/lib/torrentStreamingService.ts:78-80 | the reduction ends on the first of the longest files |
| TorrentStreaming.SelectFile | src/lib/torrentStreamingService.ts:78-80 | no file exactly for an empty list, otherwise the first of the longest |
| TorrentStreaming.FirstLargestUnique | src/lib/torrentStreamingService.ts:78-80 | the chosen file is determined |
| TorrentStreaming.SelectFileExample | src/lib/torrentStreamingService.ts:78-80 | of files of 10, 500 and 20 bytes the 500-byte one is chosen |
| TorrentStreaming.SelectFileTie | src/lib/torrentStreamingService.ts:78-80 | of two equally long files the first is chosen |
| TorrentStreaming.StreamingService.constructor | src/lib/torrentStreamingService.ts:25-33 | both tables empty, no torrents, no timers |
| TorrentStreaming.StreamingService.StreamSong | src/lib/torrentStreamingService.ts:36-126 | rejects a song without links; resolves an existing URL untouched; otherwise writes a connecting record and adds a torrent plus a timer, or rejects once the client is destroyed |
| TorrentStreaming.StreamingService.OnReady | src/lib/torrentStreamingService.ts:74-102 | with no files it throws and changes nothing; otherwise it resolves with the largest file's URL and writes the ready record |
| TorrentStreaming.StreamingService.OnProgress | src/lib/torrentStreamingService.ts:104-110 | an existing record gets the new figures; a missing one stays missing |
| TorrentStreaming.StreamingService.OnError | src/lib/torrentStreamingService.ts:112-116 | rejects with the message, writes the error record, and the client drops the torrent |
| TorrentStreaming.StreamingService.OnTimeout | src/lib/torrentStreamingService.ts:119-124 | times out exactly when the record has no stream URL, then writes the timeout error |
| TorrentStreaming.StreamingService.HandleError | src/lib/torrentStreamingService.ts:165-176 | the song's record becomes the error record, whether or not it existed |
| TorrentStreaming.StreamingService.GetStreamProgress | src/lib/torrentStreamingService.ts:129-131 | the stored record exactly for present songs, for that song and well formed |
| TorrentStreaming.StreamingService.GetAllStreams | src/lib/torrentStreamingService.ts:134-136 | the i-th element is the stored record of the i-th song in insertion order, and every record is well formed |
| TorrentStreaming.StreamingService.StopStream | src/lib/torrentStreamingService.ts:139-147 | removes the song from both tables and its torrent from the client |
| TorrentStreaming.StreamingService.Cleanup | src/lib/torrentStreamingService.ts:179-183 | the first call destroys the client and empties both tables; a later call throws from `destroy` and changes nothing |
| TorrentStreaming.RestreamWhileConnecting | src/lib/torrentStreamingService.ts:45-72 | a second `streamSong` while connecting adds a second torrent and leaves the first in the client |
| TorrentStreaming.ReadyBeforeTimeout | src/lib/torrentStreamingService.ts:119-124 | a torrent that became ready is not timed out, and the ready record stays |
| TorrentStreaming.TimeoutAfterStop | src/lib/torrentStreamingService.ts:139-147 | the timer still fires after `stopStream` and brings the song back as a timeout error |
| TorrentStreaming.ReadyThenProgress | src/lib/torrentStreamingService.ts:150-162 | 5% shows downloading at 5, 15% shows streaming at 15, and the stream URL stays |
| TorrentDownloads.QueuedEntry | src/lib/torrentService.ts:32-36 | a well-formed queued record at progress 0 |
| TorrentDownloads.TickEntry | src/lib/torrentService.ts:63-97 | progress never falls and stays at most 100; completed exactly when it reaches 100; error exactly on a low roll below 90 |
| TorrentDownloads.Run | src/lib/torrentService.ts:63-97 | the records of successive ticks: well formed, progress never falls, only the last can be completed or failed, and a run cut short ends on one of those |
| TorrentDownloads.CompletedIsLast | src/lib/torrentService.ts:68-76 | nothing is written after `completed`, so an error never follows it |
| TorrentDownloads.DownloadSimulator.constructor | src/lib/torrentService.ts:63-65 | a running interval at progress 0 |
| TorrentDownloads.DownloadSimulator.Tick | src/lib/torrentService.ts:64-96 | a running tick writes exactly the record above and stops on completion or error; a stopped one changes nothing |
| TorrentDownloads.TorrentService.constructor | src/lib/torrentService.ts:16 | an empty table |
| TorrentDownloads.TorrentService.DownloadSong | src/lib/torrentService.ts:19-41 | no change without a torrent link or for a queued song; otherwise a queued record and a fresh running simulator |
| TorrentDownloads.TorrentService.GetDownloadProgress | src/lib/torrentService.ts:45-47 | the stored record exactly for present songs, for that song and well formed |
| TorrentDownloads.TorrentService.GetAllDownloads | src/lib/torrentService.ts:50-52 | the i-th element is the stored record of the i-th song in insertion order, and every record is well formed |
| TorrentDownloads.TorrentService.CancelDownload | src/lib/torrentService.ts:55-60 | removes the song's record; an absent song changes nothing |
| TorrentDownloads.TickAfterCancel | src/lib/torrentService.ts:55-60 | a tick after `cancelDownload` puts the song back in the table as downloading |
| MusicPlayer.FormatTimeFields | src/components/MusicPlayer.tsx:45-49 | for a non-negative time, seconds field in 0..59 and minutes times 60 plus seconds is the whole seconds |
| MusicPlayer.Trunc | src/components/MusicPlayer.tsx:47 | rounds towards zero: within one below a non-negative number, within one above a negative one |
| MusicPlayer.Rem60 | src/components/MusicPlayer.tsx:47 | `seconds % 60` has the sign of `seconds`, is smaller than 60 in size, and with the truncated quotient gives `seconds` back |
| MusicPlayer.SecondsField | src/components/MusicPlayer.tsx:48 | seconds below 60 print as two digits that read back as the value |
| MusicPlayer.FormatTime | src/components/MusicPlayer.tsx:45-49 | for a non-negative time, the shown `m:ss` reads back as its whole number of seconds, and the minutes field has no leading zero |
| MusicPlayer.ParseClock | src/components/MusicPlayer.tsx:48 | only strings with a colon before two final characters and a minutes field without a leading zero are read |
| MusicPlayer.ClockRoundTrip | src/components/MusicPlayer.tsx:48 | unpadded minutes, a colon and two-digit seconds read back as their total in seconds |
| MusicPlayer.FormatTotalTime | src/components/MusicPlayer.tsx:52 | the total time shows as "3:00" |
| MusicPlayer.ElapsedSeconds | src/components/MusicPlayer.tsx:53 | proportional to progress, 0 at 0, within the total for progress in 0..100 |
| MusicPlayer.ElapsedSecondsMonotone | src/components/MusicPlayer.tsx:53 | more progress shows more time, and conversely |
| MusicPlayer.NextProgress | src/components/MusicPlayer.tsx:21-27 | stops and rewinds to 0 exactly at 100 or more, otherwise adds 0.2; stays below 100.2 |
| MusicPlayer.Play | src/components/MusicPlayer.tsx:19-29 | after n ticks, either playback stopped at progress 0 or every tick added 0.2 |
| MusicPlayer.PlayFrom | src/components/MusicPlayer.tsx:19-29 | ticks from k steps keep playing while the total stays within 500 steps |
| MusicPlayer.PlaysFiveHundredTicks | src/components/MusicPlayer.tsx:19-29 | 500 ticks reach 100, the 501st stops playback at 0 |
| MusicPlayer.PlayAfter | src/components/MusicPlayer.tsx:19-29 | ticks compose while playback has not stopped |
| MusicPlayer.DisplayedTimeWithinTotal | src/components/MusicPlayer.tsx:97 | the elapsed time shown never exceeds 3:00 |
| MusicPlayer.Player.constructor | src/components/MusicPlayer.tsx:10-12 | paused at progress 0 |
| MusicPlayer.Player.TogglePlayPause | src/components/MusicPlayer.tsx:34-36 | flips `isPlaying` and keeps the progress invariant |
| MusicPlayer.Player.Tick | src/components/MusicPlayer.tsx:19-29 | while playing, progress follows the updater and playback stops at 100; when paused nothing changes |
| MusicPlayer.Player.CurrentTime | src/components/MusicPlayer.tsx:53 | the current time is progress/100 of the 180-second total, in [0, 181) seconds |

## Left out

- The WebTorrent engine (peers, pieces, the HTTP server behind `streamURL`) is not modelled. Its events are method parameters, and the engine is trusted to call them only for torrents it holds.
- Promises: `streamSong`'s promise is reported as rejected, resolved or pending when the call returns. `OnReady` and `OnError` return the later settlement.
- Toasts and `console` output are not modelled.
- Scheduling: timers, intervals and engine events are methods that the caller invokes in any order it chooses. No interleaving of them is quantified over.
- Floating point: progress and speeds are exact reals. `progress += 0.2` and `Math.random() * 5` accumulate no rounding error.
- TorrentsPage.SizeMb: the `toFixed(1)` string and its " MB" suffix are left out; the model keeps the number.
- Text.LowerChar: only ASCII letters are lower-cased. Unicode case mapping is not modelled.
- React rendering, state hooks and the 500 ms search delay are not modelled. Each page handler returns the new state instead of calling its setter.
- MusicPlayer.Player.Tick: it models the interval's effect only while it exists. The effect's teardown with `clearInterval` is not modelled.
- The catalogue contents of `dummyData.ts`, `streamingSongs` and the other pages (`Index`, `Library`, `Downloads`, `MainLayout`, `App`, `MusicPlayerContext`) are not part of this model.
- The player's `handleDownload` only shows a toast and is not modelled.
