/** The background download task, download_task (app.py:91-157): seed the
    entry, choose the downloader's options, pass each progress event to the
    hook, then record success or failure. */
module Runner {
  import opened Wrappers
  import opened Normalizer
  import opened Snapshot
  import opened Store

  /** The arguments the request hands to the task. `mediaType` and
      `quality` are None when the request sent JSON null. */
  datatype Task = Task(url: string, mediaType: Option<string>, quality: Option<string>, jobId: string)

  /** The post-processing step of an audio download: FFmpegExtractAudio with
      a codec and a bitrate. */
  datatype Postprocessor = ExtractAudio(codec: string, bitrate: string)

  /** The options that vary between the two paths (app.py:113-135): the
      format selector, the container the streams are merged into (video
      only) and the post-processing step (audio only). */
  datatype Options = Options(format: string, mergeOutputFormat: Option<string>, postprocessor: Option<Postprocessor>)

  /** The selector for the best mp4 video of at most `height` lines with the
      best m4a audio, falling back to the best single mp4 file, then to the
      best of anything. */
  function CappedSelector(height: string): string {
    "bestvideo[height<=" + height + "][ext=mp4]+bestaudio[ext=m4a]/best[ext=mp4]/best"
  }

  /** quality_map (app.py:103-109): the five qualities a request may name. */
  function QualityMap(): (m: map<string, string>)
    ensures m.Keys == {"2160p", "1080p", "720p", "480p", "360p"}
  {
    map[
      "2160p" := CappedSelector("2160"),
      "1080p" := CappedSelector("1080"),
      "720p" := CappedSelector("720"),
      "480p" := CappedSelector("480"),
      "360p" := CappedSelector("360")]
  }

  /** Every quality of the map caps the video height at its own number of
      lines. */
  lemma QualityMapCapsHeight(q: string)
    requires q in QualityMap()
    ensures |q| > 1 && q[|q| - 1] == 'p'
    ensures QualityMap()[q] == CappedSelector(q[..|q| - 1])
  {
    if q == "2160p" {
      assert q[..|q| - 1] == "2160";
    } else if q == "1080p" {
      assert q[..|q| - 1] == "1080";
    } else if q == "720p" {
      assert q[..|q| - 1] == "720";
    } else if q == "480p" {
      assert q[..|q| - 1] == "480";
    } else {
      assert q[..|q| - 1] == "360";
    }
  }

  /** `quality_map.get(quality, quality_map['1080p'])`. */
  function VideoFormat(quality: Option<string>): (f: string)
    ensures quality.Some? && quality.value in QualityMap() ==> f == QualityMap()[quality.value]
    ensures quality.None? || quality.value !in QualityMap() ==> f == QualityMap()["1080p"]
  {
    if quality.Some? && quality.value in QualityMap() then QualityMap()[quality.value] else QualityMap()["1080p"]
  }

  /** app.py:111-135: the video path only for the type 'video'; any other
      type, JSON null included, takes the audio path. */
  function SelectFormat(mediaType: Option<string>, quality: Option<string>): (o: Options)
    ensures mediaType == Some("video") <==> o.postprocessor.None?
    ensures mediaType == Some("video") ==> o.format == VideoFormat(quality) && o.mergeOutputFormat == Some("mp4")
    ensures mediaType != Some("video") ==>
              o == Options("bestaudio/best", None, Some(ExtractAudio("mp3", "320")))
  {
    if mediaType == Some("video") then Options(VideoFormat(quality), Some("mp4"), None)
    else Options("bestaudio/best", None, Some(ExtractAudio("mp3", "320")))
  }

  /** A quality the map does not know, or none at all, selects exactly what
      '1080p' selects. */
  lemma UnknownQualityIs1080p(quality: Option<string>)
    requires quality.None? || quality.value !in QualityMap()
    ensures SelectFormat(Some("video"), quality) == SelectFormat(Some("video"), Some("1080p"))
  {
  }

  /** On the audio path the quality is ignored. */
  lemma AudioIgnoresQuality(mediaType: Option<string>, q1: Option<string>, q2: Option<string>)
    requires mediaType != Some("video")
    ensures SelectFormat(mediaType, q1) == SelectFormat(mediaType, q2)
  {
  }

  /** A second write under the same key hides the first. */
  lemma Overwrite<K, V>(m: map<K, V>, k: K, first: V, second: V)
    ensures m[k := first][k := second] == m[k := second]
  {
  }

  /** The downloader reporting `events`, in order, to the hook of job `id`:
      the job's entry ends as the hook leaves it after the last event, and no
      other job changes. */
  method ReportEvents(store: JobStore, id: string, events: seq<ProgressEvent>)
    requires store.Valid() && id in store.jobs
    modifies store
    ensures store.Valid()
    ensures Replay(Some(old(store.jobs)[id]), events).Some?
    ensures store.jobs == old(store.jobs)[id := Replay(Some(old(store.jobs)[id]), events).value]
  {
    ghost var initial := store.jobs;
    ghost var start := Some(store.jobs[id]);
    assert events[..0] == [];
    var i := 0;
    while i < |events|
      invariant 0 <= i <= |events|
      invariant store.Valid()
      invariant store.jobs == initial[id := Replay(start, events[..i]).value]
    {
      ghost var before := Replay(start, events[..i]);
      assert store.Find(id) == before;
      ReplayPrefixStep(start, events, i);
      store.OnProgress(id, events[i]);
      Overwrite(initial, id, before.value, Hook(before, events[i]).value);
      i := i + 1;
    }
    assert events[..i] == events;
  }

  /** download_task. The downloader is replaced by what it does to the task:
      the progress events it reports, in order, and how the extraction call
      ends. Returns the options handed to the downloader. Only the task's
      own entry changes. */
  method DownloadTask(store: JobStore, task: Task, events: seq<ProgressEvent>, outcome: Outcome)
    returns (opts: Options)
    requires store.Valid()
    modifies store
    ensures store.Valid()
    ensures opts == SelectFormat(task.mediaType, task.quality)
    ensures store.jobs == old(store.jobs)[task.jobId := TaskEntry(events, outcome)]
  {
    var id := task.jobId;
    ghost var initial := store.jobs;
    store.Seed(id);
    opts := SelectFormat(task.mediaType, task.quality);
    ReportEvents(store, id, events);
    ghost var progressed := Progressed(events);
    Overwrite(initial, id, SeedEntry(), progressed);
    assert store.Find(id) == Some(progressed);
    match outcome {
      case Extracted(title) =>
        store.Complete(id, title);
        Overwrite(initial, id, progressed, CompletedEntry(progressed, title));
      case Raised(error) =>
        store.Fail(id, error);
        Overwrite(initial, id, progressed, FailedEntry(progressed, error));
    }
  }
}
