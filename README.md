# Job tracking and progress normalisation of the media downloader

This project models, in Dafny, the core of a small web service that downloads
media. A client POSTs a URL to `/download`. A background task drives the
downloader (`yt_dlp`) and keeps a per-job entry in the table `progress_data`
up to date. The client polls `/progress/<job_id>` for that entry.

The model has six modules:

- `Wrappers` holds `Option` (Python's `None` or a value) and `Slot` (a dict key
  that is missing, holds `None`, or holds a value). `Slot` is needed because
  `d.get(k, default)` treats the first two cases differently.
- `Normalizer` turns one raw progress event into what a client is shown. This
  covers the percent, the speed and size tiers, the ETA and the base name of
  the file. Each is a pure function. Their contracts state the tiers, that
  each amount times its unit's scale gives back the value, and that the ETA's
  minutes and seconds are the quotient and remainder of its whole seconds
  (`FloorSplit`); lemmas add the tier
  boundaries and the bounds of the percent. `Normalise` returns `None` exactly when
  the source's `try` block would raise.
- `Snapshot` models one job's entry as a `map<Key, Value>`, like the Python
  dict. Assigning fields into an entry is `Merge`. A missing entry reads as the
  empty dict, because the table is a `defaultdict(dict)`. This module also
  holds the pure transitions: seed, 'downloading' event, 'finished' event,
  success and failure. `Hook` is one hook call, and `Replay` is the hook
  applied to a sequence of events. The lifecycle lemmas are here too.
- `Store` holds the class `JobStore`, whose field `jobs` is the table. Its
  methods (`Seed`, `OnDownloading`, `OnFinishedHook`, `OnProgress`, `Complete`,
  `Fail`, `Poll`) write and read the map in place. Each one states the whole
  new table, and that no other job's entry changes.
- `Runner` contains the quality map, format selection and `DownloadTask`. The
  downloader is replaced by what it does to the task: the progress events it
  reports, in order, and an `Outcome` (the returned title, or the text of the
  raised exception).
- `Facade` contains the `download` handler (validation and defaults) and
  end-to-end scenarios over the store.

Byte counts are integers, while speed and ETA are reals. The percent is
rounded to a tenth, with ties going to even, applied to the exact real
ratio. For speed and size the model keeps the unit tier and the exact amount
in that unit. The ETA keeps the whole seconds, or the minutes and seconds.

In a few places the code gives weaker guarantees than a job tracker usually promises. The model
follows the code in each case:

- The `starting` entry is written by the background task (app.py:94), not by
  the handler before the thread starts (app.py:180-182). A poll made right
  after submission can therefore be answered "Job not found"
  (`Facade.PollBeforeTaskRuns`).
- No tier above minutes exists for the ETA: two hours show as `120m 0s`. The
  size has no TB tier and the speed has no GB/s tier.
- The percent is neither clamped to 100 nor monotone. An estimated total can
  be exceeded (`Normalizer.PercentNotClamped`).
- A 'downloading' event after a 'finished' one moves the job from
  `processing` back to `downloading`. This happens when video and audio
  streams are fetched one after the other
  (`Snapshot.ProcessingCanReturnToDownloading`).
- A 'downloading' event replaces the whole entry, so the entry then has six
  keys.
- On failure the percent is kept as it was; it is not forced to 100.
- A request whose `type` is JSON `null` takes the audio path, because
  `None != 'video'`. A `null` quality selects 1080p. A `None` title is
  reported as "Successfully downloaded: None".

## Model

| member | source | states |
|---|---|---|
| `Wrappers.Slot.Get` | app.py:38 | `d.get(k)`: None for a missing key and for a stored None, else the stored value |
| `Wrappers.Slot.GetOr` | app.py:31 | `d.get(k, default)`: the default only for a missing key; a stored None stays None |
| `Normalizer.Total` | app.py:30 | the total is `total_bytes` when it is truthy, else the estimate, else 0; it is None only when `total_bytes` is falsy and the estimate is stored as None |
| `Normalizer.RoundTenth` | app.py:77 | `round(x, 1)`: a whole number of tenths within 0.05 of x; a tie goes to the even tenth |
| `Normalizer.Percent` | app.py:33-36 | 0 when the total is not positive; otherwise `round(downloaded/total*100, 1)` as `RoundTenth` pins it down: a whole number of tenths within 0.05 of the ratio, a tie going to the even tenth |
| `Normalizer.RoundTenthAtLeast` | app.py:77 | rounding never falls below a tenth that the input is at or above |
| `Normalizer.RoundTenthAtMost` | app.py:77 | rounding never rises above a tenth that the input is at or below |
| `Normalizer.RatioAtMostOne` | app.py:34 | downloaded ≤ total and total > 0 give a ratio of at most 1 |
| `Normalizer.PercentAtMostHundred` | app.py:33-36 | downloaded ≤ total gives a percent of at most 100, whatever the sign of either |
| `Normalizer.PercentBounded` | app.py:33-36 | 0 ≤ downloaded ≤ total gives 0 ≤ percent ≤ 100 |
| `Normalizer.PercentAboveHundred` | app.py:33-36 | a percent above 100 implies total > 0 and downloaded > total (there is no clamp) |
| `Normalizer.PercentNotClamped` | app.py:34 | 150 bytes of an estimated 100 show as 150.0 percent |
| `Normalizer.SpeedTier` | app.py:38-47 | "Calculating..." exactly when the speed is missing, None or 0; otherwise MB/s iff speed > 1024², KB/s iff 1024 < speed ≤ 1024², B/s iff speed ≤ 1024; amount × unit scale = speed; KB/s and MB/s amounts exceed 1 |
| `Normalizer.SpeedTierBoundaries` | app.py:40-45 | exactly 1024 B/s stays in B/s, 1025 moves to KB/s, and 1 TB/s shows as 1048576 MB/s |
| `Normalizer.SizeTier` | app.py:66-73 | a plain byte count iff total ≤ 1024; otherwise GB iff > 1024³, MB iff in (1024², 1024³], KB iff in (1024, 1024²]; amount × unit scale = total and amount > 1 |
| `Normalizer.SizeTierBoundaries` | app.py:66-73 | an unknown total shows "0 B", 1024 shows "1024 B", and 2 TB shows 2048 GB |
| `Normalizer.Trunc` | app.py:52 | `int(x)` truncates toward zero |
| `Normalizer.Mod60` | app.py:55 | Python's float `% 60` is in [0, 60) and differs from x by a multiple of 60 |
| `Normalizer.EtaTier` | app.py:49-58 | "Calculating..." exactly when the ETA is missing, None or 0; `<int(eta)>s` exactly when it is nonzero and below 60; otherwise `<m>m <s>s` with m = ⌊eta⌋ div 60 and s = ⌊eta⌋ mod 60 |
| `Normalizer.FloorSplit` | app.py:54-55 | whole minutes plus the floor of the remaining seconds are the Euclidean quotient and remainder of the whole seconds |
| `Normalizer.EtaHasNoHours` | app.py:50-56 | 7200 s shows as 120m 0s, 59.9 s as 59s, and 60 s as 1m 0s |
| `Normalizer.AfterLast` | app.py:62 | `s.split(c)[-1]` holds no c, is a suffix of s, is preceded by c when s holds c, and is s itself otherwise |
| `Normalizer.BaseName` | app.py:60-64 | the result holds no '/' and is a suffix of the path; it follows the last '/' if there is one, else the last '\\' (and then holds no '\\'); it equals the path iff the path holds neither separator |
| `Normalizer.Raises` | app.py:30-61 | the raise points of the `try` block: comparing a None total with 0 (app.py:33), dividing a None download count (app.py:34) and testing '/' in a None filename (app.py:61); `Normalise` returns None exactly when one of them is reached |
| `Normalizer.Normalise` | app.py:29-84 | None (the exception is only logged) exactly when the total is None, or the total is positive and the downloaded count is None, or the filename is None; otherwise the fields come from the tier functions, with a missing filename read as "Unknown" |
| `Normalizer.UnknownTotalShowsZero` | app.py:30-36 | with no total and no estimate the event still normalises, to percent 0 and size "0 B" |
| `Snapshot.Merge` | app.py:88-89 | a dict item assignment: the assigned keys take the new values, every other key keeps its value, and types are preserved |
| `Snapshot.Current` | app.py:21 | a missing entry reads as the empty dict |
| `Snapshot.SeedEntry` | app.py:94-101 | exactly the six progress keys: status starting, percent 0, speed "Initializing...", eta and total_size "Calculating...", filename "Preparing..." |
| `Snapshot.DownloadingEntry` | app.py:75-82 | exactly the six progress keys and no message: status downloading, and the progress read back from the entry is the one written |
| `Snapshot.ProcessingEntry` | app.py:87-89 | status processing and percent 100 are added to the keys; every other key is unchanged |
| `Snapshot.TitleText` | app.py:139 | a missing title reads "Unknown", a None title "None" |
| `Snapshot.CompletedEntry` | app.py:151-153 | status finished, percent 100, message "Successfully downloaded: <title>"; every other key is unchanged |
| `Snapshot.FailedEntry` | app.py:155-157 | status error, message "Error: <e>"; every other key, percent included, is unchanged |
| `Snapshot.NotFoundReply` | app.py:190-191 | exactly status error and message "Job not found" |
| `Snapshot.Hook` | app.py:27-89 | the four-way dispatch of one hook call: a 'downloading' event that normalises replaces the entry by exactly the six progress keys, status downloading, with the normalised progress; one that raises leaves the entry as it was; a 'finished' event adds status processing and percent 100 to the entry, or to `{}` when there is none, keeping every other key; any other status leaves it as it was; an entry is never removed |
| `Snapshot.HookKeepsActive` | app.py:27-89 | one hook call on an entry in starting, downloading or processing leaves an entry, well formed and still in one of those phases |
| `Snapshot.Replay` | app.py:137-138 | the hook applied to the events in order: no events leave the entry as it was, and an existing entry is never removed |
| `Snapshot.ReplayAppend` | app.py:116 | seeing one more event is one more hook call on the entry so far |
| `Snapshot.ReplayPrefixStep` | app.py:116 | the hook after the first i+1 events is one hook call after the first i |
| `Snapshot.ReplayKeepsActive` | app.py:27-89 | after any sequence of events an active entry is still present, well formed and active |
| `Snapshot.LastDownloadingEventWins` | app.py:75-82 | if the last event is a 'downloading' event that normalises, the entry is exactly the one it writes |
| `Snapshot.Progressed` | app.py:94-101 | the entry of a seeded job after the hook has seen the events: always well formed and in starting, downloading or processing |
| `Snapshot.TaskEntry` | app.py:91-157 | the entry a task leaves behind has status finished when the extraction returned and error when it raised; `Snapshot.TaskEndsTerminal` adds that it is well formed, the messages and the 100 on success |
| `Snapshot.TaskEndsTerminal` | app.py:151-157 | every task ends finished iff the extraction returned and error iff it raised, with the matching message; success pins percent to 100 |
| `Snapshot.FailureKeepsProgress` | app.py:155-157 | on failure every key other than status and message is the one the last hook call left |
| `Snapshot.PollWhileRunning` | app.py:94-101 | after any prefix of the events a poll finds starting, downloading or processing |
| `Snapshot.ProcessingCanReturnToDownloading` | app.py:75-89 | a 'finished' event followed by a 'downloading' one leaves a downloading entry |
| `Store.JobStore.constructor` | app.py:21 | the table starts empty |
| `Store.JobStore.Seed` | app.py:94-101 | the id maps to the seed entry; every other job is unchanged |
| `Store.JobStore.OnDownloading` | app.py:28-85 | the entry is replaced by the normalised six fields, or nothing at all changes when normalising raises |
| `Store.JobStore.OnFinishedHook` | app.py:87-89 | the id's entry (empty if missing) gets status processing and percent 100; every other job is unchanged |
| `Store.JobStore.OnProgress` | app.py:27-89 | one hook call: 'downloading' and 'finished' events act as above, every other status leaves the table unchanged |
| `Store.JobStore.Complete` | app.py:151-153 | the id's entry becomes the completed entry; every other job is unchanged |
| `Store.JobStore.Fail` | app.py:155-157 | the id's entry becomes the failed entry; every other job is unchanged |
| `Store.JobStore.Poll` | app.py:187-191 | the stored entry for a known id, else the not-found reply; the reply is always well formed and has a status |
| `Runner.QualityMap` | app.py:103-109 | `quality_map` knows exactly the five qualities 2160p, 1080p, 720p, 480p and 360p; `Runner.QualityMapCapsHeight` gives the selector of each |
| `Runner.QualityMapCapsHeight` | app.py:103-109 | each quality "<h>p" maps to the selector that caps the height at h |
| `Runner.VideoFormat` | app.py:112 | a known quality's selector, else the 1080p selector |
| `Runner.SelectFormat` | app.py:111-135 | the video path (quality selector, merged to mp4) iff the type is 'video'; any other type gets "bestaudio/best" with an mp3 320 extraction step |
| `Runner.UnknownQualityIs1080p` | app.py:112 | an unknown or null quality selects exactly what 1080p selects |
| `Runner.AudioIgnoresQuality` | app.py:122-135 | on the audio path the quality makes no difference |
| `Runner.ReportEvents` | app.py:137-138 | after the events, in order, the job's entry is the replay of the hook over them; no other job changes |
| `Runner.DownloadTask` | app.py:91-157 | the options are the selected ones, and the table changes only at the task's id, to the entry seed, events and outcome determine |
| `Facade.Download` | app.py:169-184 | refused with "URL required!" exactly when the URL is missing, None or empty; otherwise accepted with the given id, type defaulting to 'video' and quality to '1080p' |
| `Facade.DefaultsSelect1080pVideo` | app.py:172-173 | a request naming only the URL downloads video at 1080p |
| `Facade.NullTypeDownloadsAudio` | app.py:172 | a null type takes the audio path |
| `Facade.PollBeforeTaskRuns` | app.py:178-184 | a poll between the handler's reply and the task's seed is answered "Job not found" |
| `Facade.SubmitAndRun` | app.py:169-191 | a refused request leaves the table unchanged; an accepted one, run to the end, changes only its own entry, to the task's final entry, and a poll returns that entry |

## Left out

- downloader.py is an interactive command-line script that only hands a URL to the downloader. No part of it is modelled.
- Flask routing, JSON encoding, `render_template`, `/health`, the static pages and the port setting (app.py:160-166, 193-199) are web plumbing. A request body that is not a JSON object, and URL or type values that are not strings, belong to that layer and are not modelled.
- `threading.Thread` and the daemon flag (app.py:180-182) are not modelled, and the model is single-threaded. Its scenarios fix one order of the handler, the task and the polls. Nothing is claimed about concurrent access to the table.
- `yt_dlp.YoutubeDL` and `extract_info` (app.py:137-138) are a foreign library. They are replaced by a sequence of progress events and an `Outcome`. Which events the library reports for given options is not modelled.
- The temporary-file cleanup (app.py:141-149), creation of the download folder (app.py:16-18) and logging are filesystem and I/O effects. They are best-effort and are left out.
- The options that are the same on both paths are left out: the output template, which depends on an environment variable, and `keepvideo`, `quiet` and `no_warnings`.
- Job ids come from the clock (app.py:178). The model takes the id as an input, so it does not show that ids are unique.
- Normalizer.SpeedTier: the `.2f` digits of the amount are not modelled. The model keeps the unit and the exact amount.
- Normalizer.SizeTier: the `.2f` digits of the amount are not modelled, and a fractional byte estimate is not modelled because byte counts are integers.
- Normalizer.Percent: float rounding error in the division is not modelled. Rounding to a tenth is applied to the exact ratio.
- Float speed and ETA are modelled as reals. Infinities, NaN and float rounding are not modelled, so the model cannot express an infinite or NaN ETA making `int(eta)` raise at app.py:52/54 (the `try` would swallow it and leave the entry as it was).
- An event without a `status` key would raise outside the `try` block. The model's events always carry a status.
