/** One job's entry in the progress table: a dict from field names to
    values (app.py:21, 75-82, 88-89, 94-101, 151-157), and the pure
    transitions that the hook and the download task apply to it. */
module Snapshot {
  import opened Wrappers
  import opened Normalizer

  /** The `status` values a client can see. */
  datatype Phase = Starting | Downloading | Processing | Finished | Error {
    function Name(): string {
      match this
      case Starting => "starting"
      case Downloading => "downloading"
      case Processing => "processing"
      case Finished => "finished"
      case Error => "error"
    }

    /** The phases of a job whose download task has not returned yet. */
    predicate Active() {
      Starting? || Downloading? || Processing?
    }
  }

  /** The keys an entry may hold. */
  datatype Key = StatusKey | PercentKey | SpeedKey | EtaKey | FilenameKey | TotalSizeKey | MessageKey {
    function Name(): string {
      match this
      case StatusKey => "status"
      case PercentKey => "percent"
      case SpeedKey => "speed"
      case EtaKey => "eta"
      case FilenameKey => "filename"
      case TotalSizeKey => "total_size"
      case MessageKey => "message"
    }
  }

  datatype Value =
    | PhaseValue(phase: Phase)
    | PercentValue(percent: real)
    | SpeedValue(speed: SpeedText)
    | EtaValue(eta: EtaText)
    | SizeValue(size: SizeText)
    | TextValue(text: string)

  /** A job's entry, the dict stored under its id. */
  type Entry = map<Key, Value>

  /** The six keys of a seeded entry and of an entry a 'downloading' event
      writes. */
  const ProgressKeys: set<Key> := {StatusKey, PercentKey, SpeedKey, EtaKey, FilenameKey, TotalSizeKey}

  /** Every key present holds the kind of value it is written with. */
  predicate WellTyped(e: Entry) {
    && (StatusKey in e ==> e[StatusKey].PhaseValue?)
    && (PercentKey in e ==> e[PercentKey].PercentValue?)
    && (SpeedKey in e ==> e[SpeedKey].SpeedValue?)
    && (EtaKey in e ==> e[EtaKey].EtaValue?)
    && (FilenameKey in e ==> e[FilenameKey].TextValue?)
    && (TotalSizeKey in e ==> e[TotalSizeKey].SizeValue?)
    && (MessageKey in e ==> e[MessageKey].TextValue?)
  }

  /** An entry a client can be shown: well typed and with a status. */
  predicate WellFormed(e: Entry) {
    WellTyped(e) && StatusKey in e
  }

  function PhaseOf(e: Entry): Phase
    requires WellFormed(e)
  {
    e[StatusKey].phase
  }

  /** Assigning the items of `u` into the dict `e` one by one. */
  function Merge(e: Entry, u: Entry): (r: Entry)
    ensures r.Keys == e.Keys + u.Keys
    ensures forall k :: k in u ==> r[k] == u[k]
    ensures forall k :: k in e && k !in u ==> r[k] == e[k]
    ensures WellTyped(e) && WellTyped(u) ==> WellTyped(r)
  {
    e + u
  }

  /** `progress_data[job_id]` read for an item assignment: a missing entry
      reads as the empty dict (the table is a `defaultdict(dict)`). */
  function Current(e: Option<Entry>): (r: Entry)
    ensures e.None? ==> r == map[]
    ensures e.Some? ==> r == e.value
  {
    if e.Some? then e.value else map[]
  }

  // ---------------------------------------------------------- transitions

  /** The entry a download task seeds first (app.py:94-101). */
  function SeedEntry(): (e: Entry)
    ensures WellFormed(e) && PhaseOf(e) == Starting
    ensures e.Keys == ProgressKeys
    ensures e[PercentKey] == PercentValue(0.0)
    ensures e[SpeedKey] == SpeedValue(SpeedInitializing)
    ensures e[EtaKey] == EtaValue(EtaCalculating) && e[TotalSizeKey] == SizeValue(SizeCalculating)
    ensures e[FilenameKey] == TextValue("Preparing...")
  {
    map[StatusKey := PhaseValue(Starting),
        PercentKey := PercentValue(0.0),
        SpeedKey := SpeedValue(SpeedInitializing),
        EtaKey := EtaValue(EtaCalculating),
        FilenameKey := TextValue("Preparing..."),
        TotalSizeKey := SizeValue(SizeCalculating)]
  }

  /** The progress an entry shows, read back from its fields. */
  function ProgressOf(e: Entry): Progress
    requires WellTyped(e) && ProgressKeys <= e.Keys
  {
    Progress(e[PercentKey].percent, e[SpeedKey].speed, e[EtaKey].eta, e[FilenameKey].text, e[TotalSizeKey].size)
  }

  /** The whole entry a normalised 'downloading' event puts in place
      (app.py:75-82): exactly the six progress keys, so any message goes. */
  function DownloadingEntry(p: Progress): (e: Entry)
    ensures WellFormed(e) && PhaseOf(e) == Downloading
    ensures e.Keys == ProgressKeys && MessageKey !in e
    ensures ProgressOf(e) == p
  {
    map[StatusKey := PhaseValue(Downloading),
        PercentKey := PercentValue(p.percent),
        SpeedKey := SpeedValue(p.speed),
        EtaKey := EtaValue(p.eta),
        FilenameKey := TextValue(p.filename),
        TotalSizeKey := SizeValue(p.totalSize)]
  }

  /** A 'finished' event (app.py:88-89): status 'processing' and percent 100,
      every other key as it was. */
  function ProcessingEntry(e: Entry): (r: Entry)
    ensures r.Keys == e.Keys + {StatusKey, PercentKey}
    ensures WellTyped(e) ==> WellFormed(r)
    ensures r[StatusKey] == PhaseValue(Processing) && r[PercentKey] == PercentValue(100.0)
    ensures forall k :: k in e && k != StatusKey && k != PercentKey ==> r[k] == e[k]
  {
    Merge(e, map[StatusKey := PhaseValue(Processing), PercentKey := PercentValue(100.0)])
  }

  /** `info.get('title', 'Unknown')`, formatted into an f-string: a missing
      title reads "Unknown", a `None` title "None". */
  function TitleText(title: Slot<string>): (t: string)
    ensures title.Missing? ==> t == "Unknown"
    ensures title.Null? ==> t == "None"
    ensures title.Given? ==> t == title.value
  {
    match title
    case Missing => "Unknown"
    case Null => "None"
    case Given(s) => s
  }

  /** A successful download (app.py:139, 151-153): status 'finished', percent
      100 and the success message; every other key as it was. */
  function CompletedEntry(e: Entry, title: Slot<string>): (r: Entry)
    ensures r.Keys == e.Keys + {StatusKey, PercentKey, MessageKey}
    ensures WellTyped(e) ==> WellFormed(r)
    ensures r[StatusKey] == PhaseValue(Finished) && r[PercentKey] == PercentValue(100.0)
    ensures r[MessageKey] == TextValue("Successfully downloaded: " + TitleText(title))
    ensures forall k :: k in e && k != StatusKey && k != PercentKey && k != MessageKey ==> r[k] == e[k]
  {
    Merge(e, map[StatusKey := PhaseValue(Finished),
                 PercentKey := PercentValue(100.0),
                 MessageKey := TextValue("Successfully downloaded: " + TitleText(title))])
  }

  /** A failed download (app.py:155-157): status 'error' and the message
      "Error: " followed by the exception's text; every other key, the
      percent included, as it was. */
  function FailedEntry(e: Entry, error: string): (r: Entry)
    ensures r.Keys == e.Keys + {StatusKey, MessageKey}
    ensures WellTyped(e) ==> WellFormed(r)
    ensures r[StatusKey] == PhaseValue(Error) && r[MessageKey] == TextValue("Error: " + error)
    ensures forall k :: k in e && k != StatusKey && k != MessageKey ==> r[k] == e[k]
  {
    Merge(e, map[StatusKey := PhaseValue(Error), MessageKey := TextValue("Error: " + error)])
  }

  /** The reply to a poll for an id the table does not hold (app.py:191). */
  function NotFoundReply(): (e: Entry)
    ensures WellFormed(e) && PhaseOf(e) == Error
    ensures e.Keys == {StatusKey, MessageKey} && e[MessageKey] == TextValue("Job not found")
  {
    map[StatusKey := PhaseValue(Error), MessageKey := TextValue("Job not found")]
  }

  // ------------------------------------------------------------------ hook

  /** One call of the progress hook (app.py:27-89) on the job's entry, None
      when the table holds none. A 'downloading' event that normalises
      replaces the entry; one whose normalisation raises leaves it as it was;
      a 'finished' event merges into it (creating it if missing); any other
      status changes nothing. */
  function Hook(e: Option<Entry>, ev: ProgressEvent): (r: Option<Entry>)
    ensures e.Some? ==> r.Some?
    ensures ev.status == "downloading" && Normalise(ev).Some? ==>
              r.Some? && r.value.Keys == ProgressKeys && WellFormed(r.value) &&
              PhaseOf(r.value) == Downloading && ProgressOf(r.value) == Normalise(ev).value
    ensures ev.status == "finished" ==>
              r.Some? && r.value.Keys == Current(e).Keys + {StatusKey, PercentKey} &&
              r.value[StatusKey] == PhaseValue(Processing) && r.value[PercentKey] == PercentValue(100.0)
    ensures ev.status == "finished" ==>
              forall k :: k in Current(e) && k != StatusKey && k != PercentKey ==> r.value[k] == Current(e)[k]
    ensures ev.status == "downloading" && Normalise(ev).None? ==> r == e
    ensures ev.status != "downloading" && ev.status != "finished" ==> r == e
  {
    if ev.status == "downloading" then
      match Normalise(ev)
      case Some(p) => Some(DownloadingEntry(p))
      case None => e
    else if ev.status == "finished" then Some(ProcessingEntry(Current(e)))
    else e
  }

  /** The hook never removes an entry, keeps entries well formed and never
      takes a job out of the active phases. */
  lemma HookKeepsActive(e: Entry, ev: ProgressEvent)
    requires WellFormed(e) && PhaseOf(e).Active()
    ensures Hook(Some(e), ev).Some?
    ensures WellFormed(Hook(Some(e), ev).value)
    ensures PhaseOf(Hook(Some(e), ev).value).Active()
  {
  }

  /** The entry after the hook has seen `evs`, in order, starting from `e`. */
  function Replay(e: Option<Entry>, evs: seq<ProgressEvent>): (r: Option<Entry>)
    ensures evs == [] ==> r == e
    ensures e.Some? ==> r.Some?
    decreases |evs|
  {
    if evs == [] then e else Replay(Hook(e, evs[0]), evs[1..])
  }

  /** Seeing one more event is one more hook call on the entry so far. */
  lemma {:induction false} ReplayAppend(e: Option<Entry>, evs: seq<ProgressEvent>, ev: ProgressEvent)
    ensures Replay(e, evs + [ev]) == Hook(Replay(e, evs), ev)
    decreases |evs|
  {
    if evs == [] {
      assert [] + [ev] == [ev];
      assert Replay(Hook(e, ev), []) == Hook(e, ev);
    } else {
      assert (evs + [ev])[0] == evs[0];
      assert (evs + [ev])[1..] == evs[1..] + [ev];
      ReplayAppend(Hook(e, evs[0]), evs[1..], ev);
    }
  }

  /** Replaying one event more of the same sequence. */
  lemma ReplayPrefixStep(e: Option<Entry>, evs: seq<ProgressEvent>, i: nat)
    requires i < |evs|
    ensures Replay(e, evs[..i + 1]) == Hook(Replay(e, evs[..i]), evs[i])
  {
    var prefix, ev := evs[..i], evs[i];
    assert evs[..i + 1] == prefix + [ev];
    ReplayAppend(e, prefix, ev);
  }

  /** Whatever the downloader reports, a job that is active stays active
      and keeps an entry a client can be shown. */
  lemma {:induction false} ReplayKeepsActive(e: Entry, evs: seq<ProgressEvent>)
    requires WellFormed(e) && PhaseOf(e).Active()
    ensures Replay(Some(e), evs).Some?
    ensures WellFormed(Replay(Some(e), evs).value)
    ensures PhaseOf(Replay(Some(e), evs).value).Active()
    decreases |evs|
  {
    if evs != [] {
      HookKeepsActive(e, evs[0]);
      ReplayKeepsActive(Hook(Some(e), evs[0]).value, evs[1..]);
    }
  }

  /** The last progress event that normalised decides what a poll shows: if
      the final event is a 'downloading' one that normalises, the entry is
      exactly its six fields. */
  lemma LastDownloadingEventWins(e: Option<Entry>, evs: seq<ProgressEvent>, ev: ProgressEvent)
    requires ev.status == "downloading" && Normalise(ev).Some?
    ensures Replay(e, evs + [ev]) == Some(DownloadingEntry(Normalise(ev).value))
  {
    ReplayAppend(e, evs, ev);
  }

  // ------------------------------------------------------------- lifecycle

  /** What the extraction call ends with: the returned info's title, or the
      text of the exception it raised. */
  datatype Outcome = Extracted(title: Slot<string>) | Raised(error: string)

  /** The entry a download task leaves behind, after seeding the entry,
      seeing `evs` and ending with `outcome` (app.py:91-157). */
  function TaskEntry(evs: seq<ProgressEvent>, outcome: Outcome): (r: Entry)
    ensures StatusKey in r
    ensures r[StatusKey] == PhaseValue(if outcome.Extracted? then Finished else Error)
  {
    match outcome
    case Extracted(title) => CompletedEntry(Progressed(evs), title)
    case Raised(error) => FailedEntry(Progressed(evs), error)
  }

  /** The entry of a seeded job after the hook has seen `evs`. */
  function Progressed(evs: seq<ProgressEvent>): (r: Entry)
    ensures WellFormed(r) && PhaseOf(r).Active()
  {
    ReplayKeepsActive(SeedEntry(), evs);
    Current(Replay(Some(SeedEntry()), evs))
  }

  /** Every download task ends 'finished' exactly when the extraction call
      returned and 'error' exactly when it raised; the message says which,
      and only a finished job is pinned at 100 percent by the task. */
  lemma {:induction false} TaskEndsTerminal(evs: seq<ProgressEvent>, outcome: Outcome)
    ensures WellFormed(TaskEntry(evs, outcome))
    ensures !PhaseOf(TaskEntry(evs, outcome)).Active()
    ensures PhaseOf(TaskEntry(evs, outcome)) == Finished <==> outcome.Extracted?
    ensures PhaseOf(TaskEntry(evs, outcome)) == Error <==> outcome.Raised?
    ensures outcome.Extracted? ==> TaskEntry(evs, outcome)[PercentKey] == PercentValue(100.0)
    ensures outcome.Extracted? ==> TaskEntry(evs, outcome)[MessageKey] == TextValue("Successfully downloaded: " + TitleText(outcome.title))
    ensures outcome.Raised? ==> TaskEntry(evs, outcome)[MessageKey] == TextValue("Error: " + outcome.error)
  {
    ReplayKeepsActive(SeedEntry(), evs);
  }

  /** A failure keeps the progress the client last saw: every field other
      than status and message is the one the last hook call left. */
  lemma FailureKeepsProgress(evs: seq<ProgressEvent>, error: string, k: Key)
    requires k != StatusKey && k != MessageKey
    ensures k in Progressed(evs) <==> k in TaskEntry(evs, Raised(error))
    ensures k in Progressed(evs) ==> TaskEntry(evs, Raised(error))[k] == Progressed(evs)[k]
  {
    assert TaskEntry(evs, Raised(error)) == FailedEntry(Progressed(evs), error);
  }

  /** A poll taken while the task runs, after any number of the events,
      finds the job in 'starting', 'downloading' or 'processing'. */
  lemma PollWhileRunning(evs: seq<ProgressEvent>, n: nat)
    requires n <= |evs|
    ensures Replay(Some(SeedEntry()), evs[..n]).Some?
    ensures WellFormed(Replay(Some(SeedEntry()), evs[..n]).value)
    ensures PhaseOf(Replay(Some(SeedEntry()), evs[..n]).value).Active()
  {
    ReplayKeepsActive(SeedEntry(), evs[..n]);
  }

  /** The phase can go back from 'processing' to 'downloading': after a
      video stream finishes the downloader fetches the audio stream. */
  lemma ProcessingCanReturnToDownloading(e: Entry, fin: ProgressEvent, ev: ProgressEvent)
    requires fin.status == "finished"
    requires ev.status == "downloading" && Normalise(ev).Some?
    ensures Hook(Some(e), fin) == Some(ProcessingEntry(e))
    ensures Hook(Hook(Some(e), fin), ev) == Some(DownloadingEntry(Normalise(ev).value))
  {
  }
}
