/** The progress table `progress_data` (app.py:21) and the code that writes
    and reads it: the hook (app.py:27-89), the writes of the download task
    (app.py:94-101, 151-157) and the poll (app.py:187-191). */
module Store {
  import opened Wrappers
  import opened Normalizer
  import opened Snapshot

  class JobStore {
    /** Job id to that job's entry. */
    var jobs: map<string, Entry>

    /** Every stored entry can be shown to a client. */
    ghost predicate Valid()
      reads this
    {
      forall id :: id in jobs ==> WellFormed(jobs[id])
    }

    /** The entry stored under `id`, None when there is none. */
    function Find(id: string): (r: Option<Entry>)
      reads this
      ensures r.Some? <==> id in jobs
      ensures r.Some? ==> r.value == jobs[id]
    {
      if id in jobs then Some(jobs[id]) else None
    }

    /** The table as the process starts: empty. */
    constructor ()
      ensures Valid() && jobs == map[]
    {
      jobs := map[];
    }

    /** app.py:94-101: the task's first write, which replaces any entry the
        id had. */
    method Seed(id: string)
      requires Valid()
      modifies this
      ensures Valid()
      ensures jobs == old(jobs)[id := SeedEntry()]
    {
      jobs := jobs[id := SeedEntry()];
    }

    /** app.py:28-85, a 'downloading' event: the entry is replaced by the six
        fields the event normalises to; if normalising raises, nothing
        changes. No other job is touched. */
    method OnDownloading(id: string, ev: ProgressEvent)
      requires Valid()
      modifies this
      ensures Valid()
      ensures Normalise(ev).None? ==> jobs == old(jobs)
      ensures Normalise(ev).Some? ==> jobs == old(jobs)[id := DownloadingEntry(Normalise(ev).value)]
    {
      var progress := Normalise(ev);
      if progress.Some? {
        jobs := jobs[id := DownloadingEntry(progress.value)];
      }
    }

    /** app.py:87-89, a 'finished' event: status 'processing' and percent 100
        are assigned into the entry (an empty one if the id had none); its
        other fields and every other job stay as they were. */
    method OnFinishedHook(id: string)
      requires Valid()
      modifies this
      ensures Valid()
      ensures jobs.Keys == old(jobs).Keys + {id}
      ensures jobs[id] == ProcessingEntry(Current(old(Find(id))))
      ensures forall other :: other in old(jobs) && other != id ==> jobs[other] == old(jobs)[other]
    {
      jobs := jobs[id := ProcessingEntry(Current(Find(id)))];
    }

    /** ProgressLogger.__call__ (app.py:27-89): dispatch on the event's
        status; statuses other than 'downloading' and 'finished' are
        ignored. */
    method OnProgress(id: string, ev: ProgressEvent)
      requires Valid()
      modifies this
      ensures Valid()
      ensures Hook(old(Find(id)), ev).None? ==> jobs == old(jobs)
      ensures Hook(old(Find(id)), ev).Some? ==> jobs == old(jobs)[id := Hook(old(Find(id)), ev).value]
    {
      ghost var entry := Find(id);
      if ev.status == "downloading" {
        assert Hook(entry, ev) == if Normalise(ev).Some? then Some(DownloadingEntry(Normalise(ev).value)) else entry;
        OnDownloading(id, ev);
      } else if ev.status == "finished" {
        assert Hook(entry, ev) == Some(ProcessingEntry(Current(entry)));
        OnFinishedHook(id);
        assert jobs == old(jobs)[id := ProcessingEntry(Current(entry))];
      } else {
        assert Hook(entry, ev) == entry;
      }
    }

    /** app.py:151-153: the success writes, after the extraction call has
        returned `title`. */
    method Complete(id: string, title: Slot<string>)
      requires Valid()
      modifies this
      ensures Valid()
      ensures jobs == old(jobs)[id := CompletedEntry(Current(old(Find(id))), title)]
    {
      jobs := jobs[id := CompletedEntry(Current(Find(id)), title)];
    }

    /** app.py:155-157: the failure writes, with the exception's text. */
    method Fail(id: string, error: string)
      requires Valid()
      modifies this
      ensures Valid()
      ensures jobs == old(jobs)[id := FailedEntry(Current(old(Find(id))), error)]
    {
      jobs := jobs[id := FailedEntry(Current(Find(id)), error)];
    }

    /** get_progress (app.py:187-191): the stored entry, or the not-found
        reply; the table is not changed. */
    method Poll(id: string) returns (reply: Entry)
      requires Valid()
      ensures WellFormed(reply)
      ensures id in jobs ==> reply == jobs[id]
      ensures id !in jobs ==> reply == NotFoundReply()
      ensures PhaseOf(reply) == Error ==> id !in jobs || PhaseOf(jobs[id]) == Error
    {
      if id in jobs {
        reply := jobs[id];
      } else {
        reply := NotFoundReply();
      }
    }
  }
}
