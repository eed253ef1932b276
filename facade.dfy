/** The HTTP handlers of the core: `download` (app.py:168-184), which checks
    the request and hands it to a background task, and the read path of
    `get_progress` (app.py:186-191), which is JobStore.Poll. */
module Facade {
  import opened Wrappers
  import opened Normalizer
  import opened Snapshot
  import opened Store
  import opened Runner

  /** The JSON body of a POST to /download; each key may be missing or null. */
  datatype Request = Request(url: Slot<string>, mediaType: Slot<string>, quality: Slot<string>)

  /** `{'success': False, 'message': ...}` or `{'success': True, 'job_id': ...}`
      together with the task the handler starts. */
  datatype Reply = Rejected(message: string) | Accepted(jobId: string, task: Task) {
    predicate Success() {
      Accepted?
    }
  }

  /** download (app.py:169-184), given the job id the clock would give. A
      missing, null or empty URL is refused and starts no task; otherwise
      the type defaults to 'video' and the quality to '1080p' when missing
      (a null is passed on as None). The handler never writes the table. */
  function Download(req: Request, jobId: string): (r: Reply)
    ensures !r.Success() <==> req.url.Get() == None || req.url.Get() == Some("")
    ensures r.Rejected? ==> r.message == "URL required!"
    ensures r.Accepted? ==> r.jobId == jobId && r.task.jobId == jobId && r.task.url == req.url.value
    ensures r.Accepted? ==> r.task.mediaType == req.mediaType.GetOr("video")
    ensures r.Accepted? ==> r.task.quality == req.quality.GetOr("1080p")
  {
    var url := req.url.Get();
    var mediaType := req.mediaType.GetOr("video");
    var quality := req.quality.GetOr("1080p");
    if url.None? || url.value == "" then Rejected("URL required!")
    else Accepted(jobId, Task(url.value, mediaType, quality, jobId))
  }

  /** A request that names only the URL downloads video at 1080p. */
  lemma DefaultsSelect1080pVideo(url: string, jobId: string)
    requires url != ""
    ensures var r := Download(Request(Given(url), Missing, Missing), jobId);
            r.Accepted? && SelectFormat(r.task.mediaType, r.task.quality) == SelectFormat(Some("video"), Some("1080p"))
  {
  }

  /** A request whose type is JSON null is not a video request: it takes the
      audio path. */
  lemma NullTypeDownloadsAudio(url: string, quality: Slot<string>, jobId: string)
    requires url != ""
    ensures var r := Download(Request(Given(url), Null, quality), jobId);
            r.Accepted? && SelectFormat(r.task.mediaType, r.task.quality).postprocessor == Some(ExtractAudio("mp3", "320"))
  {
  }

  /** The entry is seeded by the background task, not by the handler: a
      client that polls after the handler has answered but before the task
      has run is told the job does not exist. */
  method PollBeforeTaskRuns(store: JobStore, req: Request, jobId: string) returns (reply: Reply, polled: Entry)
    requires store.Valid() && jobId !in store.jobs
    ensures reply == Download(req, jobId)
    ensures polled == NotFoundReply()
  {
    reply := Download(req, jobId);
    polled := store.Poll(jobId);
  }

  /** A full run of an accepted request, in the order a client that polls
      once after the task has returned sees it; every other job's entry is
      as it was. */
  method SubmitAndRun(store: JobStore, req: Request, jobId: string, events: seq<ProgressEvent>, outcome: Outcome)
    returns (reply: Reply, polled: Entry)
    requires store.Valid()
    modifies store
    ensures store.Valid()
    ensures reply == Download(req, jobId)
    ensures !reply.Success() ==> store.jobs == old(store.jobs)
    ensures !reply.Success() && jobId !in old(store.jobs) ==> polled == NotFoundReply()
    ensures reply.Success() ==> store.jobs == old(store.jobs)[jobId := TaskEntry(events, outcome)] && polled == TaskEntry(events, outcome)
  {
    reply := Download(req, jobId);
    if reply.Accepted? {
      var opts := DownloadTask(store, reply.task, events, outcome);
    }
    polled := store.Poll(jobId);
  }
}
