/**
 * The image upscaler component: a client-side file validator, and the
 * component's state machine over the selected file, the submitted job, the
 * last job-status snapshot, the status line, the progress figure, the
 * uploading/processing flags and whether a poll interval is armed.
 *
 * Each handler is a pure transition on `State` (whose contract says what the
 * handler does to every field) and a method of class `Upscaler` that performs
 * the same setter sequence on fields and is tied to the transition. Network
 * calls are abstract outcomes passed in; one interval callback is one atomic
 * `OnPollTick` step; the React effect keyed on the job id and the job state
 * is `RerunEffect`.
 */
module ImageProcessor {
  import opened Wrappers
  import opened Files
  import opened Jobs
  import JsText

  const MaxFileSize: nat := 50 * 1024 * 1024
  const AllowedTypes: seq<string> := ["image/png", "image/jpeg", "image/jpg", "image/webp"]

  /**
   * Accepts exactly the four image types up to 50 MiB inclusive; the type is
   * checked first, so a file failing both tests gets the type error.
   */
  function ValidateFile(f: FileInfo): (r: Option<FileError>)
    ensures r == None <==>
      (f.mimeType == "image/png" || f.mimeType == "image/jpeg" ||
       f.mimeType == "image/jpg" || f.mimeType == "image/webp") && f.size <= 52428800
    ensures f.mimeType !in AllowedTypes ==> r == Some(BadType(f.mimeType))
    ensures f.mimeType in AllowedTypes && f.size > 52428800 ==> r == Some(TooLarge(f.size))
  {
    CheckFile(AllowedTypes, MaxFileSize, f)
  }

  /** What the status line says; the text of thrown errors is not modelled. */
  datatype Notice =
    | Blank
    | Rejected(error: FileError)
    | SelectFileFirst
    | Starting
    | Started(jobPrefix: string)
    | StartFailed
    | Complete
    | ProcessingFailed(errorMessage: Option<string>)
    | StatusReport(state: JobState, percent: Option<int>)
    | NoOutputYet
    | DownloadStarted
    | DownloadFailed

  /** The component's state; `polling` stands for an armed interval in `pollIntervalRef`. */
  datatype State = State(
    file: Option<FileInfo>,
    jobId: string,
    jobStatus: Option<JobStatus>,
    status: Notice,
    progress: int,
    uploading: bool,
    processing: bool,
    polling: bool)

  /** Result of the submit request, as seen by the `await`. */
  datatype SubmitOutcome = Submitted(jobId: string) | SubmitFailed

  /** Result of one status query inside the interval callback. */
  datatype PollOutcome = Fetched(snapshot: JobStatus) | QueryFailed

  /** Result of fetching and saving the output file. */
  datatype DownloadOutcome = Saved | SaveFailed

  /** The guard of the polling effect: a job id, a status snapshot, and a non-terminal state. */
  function PollGuard(jobId: string, js: Option<JobStatus>): (armed: bool)
    ensures armed <==> jobId != "" && StateOf(js) != None && !IsTerminal(StateOf(js).value)
  {
    jobId != "" && js.Some? && (js.value.status == Queued || js.value.status == Processing)
  }

  /** `jobStatus?.status`, one of the two dependencies of the polling effect. */
  function StateOf(js: Option<JobStatus>): Option<JobState> {
    if js.Some? then Some(js.value.status) else None
  }

  /** Once the effect has run, an interval is armed exactly when its guard holds. */
  predicate Inv(s: State) {
    s.polling == PollGuard(s.jobId, s.jobStatus)
  }

  /**
   * The effect re-runs when the job id or the job state changed: its cleanup
   * clears the old interval and the new run arms one iff the guard holds.
   */
  function RerunEffect(prev: State, next: State): (t: State)
    ensures t == next.(polling := t.polling)
    ensures prev.jobId != next.jobId || StateOf(prev.jobStatus) != StateOf(next.jobStatus) ==>
      t.polling == PollGuard(next.jobId, next.jobStatus)
    ensures prev.jobId == next.jobId && StateOf(prev.jobStatus) == StateOf(next.jobStatus) ==>
      t.polling == next.polling
  {
    if prev.jobId != next.jobId || StateOf(prev.jobStatus) != StateOf(next.jobStatus)
    then next.(polling := PollGuard(next.jobId, next.jobStatus))
    else next
  }

  /** The submit button is enabled iff a file is selected and nothing is in flight. */
  function SubmitEnabled(s: State): (enabled: bool)
    ensures enabled <==> !(s.file == None || s.uploading || s.processing)
  {
    s.file.Some? && !s.uploading && !s.processing
  }

  /** The state on mount: nothing selected, no job, no interval, submit disabled. */
  function Initial(): (s: State)
    ensures Inv(s) && !s.polling && s.jobStatus == None
    ensures !SubmitEnabled(s)
  {
    State(None, "", None, Blank, 0, false, false, false)
  }

  /**
   * handleFileSelect: a rejected file clears the selection and reports the
   * validator's error, touching nothing else; an accepted one is selected,
   * clears the status line and forgets the previous job, so no interval stays armed.
   */
  function OnFileSelect(s: State, f: FileInfo): (t: State)
    ensures ValidateFile(f).Some? ==> t == s.(file := None, status := Rejected(ValidateFile(f).value))
    ensures ValidateFile(f) == None ==>
      t.file == Some(f) && t.status == Blank && t.jobId == "" && t.jobStatus == None &&
      t.progress == s.progress && t.uploading == s.uploading && t.processing == s.processing
    ensures ValidateFile(f) == None && Inv(s) ==> !t.polling
    ensures Inv(s) ==> Inv(t)
  {
    match ValidateFile(f)
    case Some(e) => s.(status := Rejected(e), file := None)
    case None => RerunEffect(s, s.(file := Some(f), status := Blank, jobId := "", jobStatus := None))
  }

  /**
   * The synchronous part of handleSubmit: without a file only the status line
   * changes; with one, uploading and processing start and progress restarts at 0,
   * which disables the submit button.
   */
  function OnSubmitStart(s: State): (t: State)
    ensures s.file == None ==> t == s.(status := SelectFileFirst)
    ensures s.file != None ==>
      t == s.(uploading := true, processing := true, progress := 0, status := Starting)
    ensures s.file != None ==> !SubmitEnabled(t)
    ensures Inv(s) ==> Inv(t)
  {
    if s.file == None then s.(status := SelectFileFirst)
    else s.(uploading := true, processing := true, progress := 0, status := Starting)
  }

  /**
   * `Math.round(p * 0.5)` for an integer `p`: the nearest integer to p/2,
   * halves rounded up.
   */
  function HalfRounded(p: int): (r: int)
    ensures 2 * r - 1 <= p <= 2 * r
    ensures 0 <= p <= 100 ==> 0 <= r <= 50
  {
    (p + 1) / 2
  }

  /** The upload-progress callback: the upload fills the first half of the bar. */
  function OnUploadProgress(s: State, percent: int): (t: State)
    ensures t == s.(progress := t.progress)
    ensures 2 * t.progress - 1 <= percent <= 2 * t.progress
    ensures 0 <= percent <= 100 ==> 0 <= t.progress <= 50
  {
    s.(progress := HalfRounded(percent))
  }

  /** `id.substring(0, 8)`: the first eight characters, or all of a shorter id. */
  function JobPrefix(id: string): (r: string)
    ensures |r| == if |id| < 8 then |id| else 8
    ensures r == id[..|r|]
  {
    if |id| <= 8 then id else id[..8]
  }

  /**
   * The asynchronous part of handleSubmit: uploading ends in every outcome;
   * only a failure ends processing and only a success sets the job id. The
   * job-status snapshot is untouched, so a success cannot arm the poll
   * interval while that snapshot is null.
   */
  function OnSubmitFinish(s: State, o: SubmitOutcome): (t: State)
    ensures !t.uploading
    ensures t.processing == (o.Submitted? && s.processing)
    ensures t.jobId == (if o.Submitted? then o.jobId else s.jobId)
    ensures t.status == (if o.Submitted? then Started(JobPrefix(o.jobId)) else StartFailed)
    ensures t.file == s.file && t.jobStatus == s.jobStatus && t.progress == s.progress
    ensures Inv(s) ==> Inv(t)
    ensures Inv(s) && s.jobStatus == None ==> !t.polling
  {
    var next := match o
      case Submitted(id) => s.(jobId := id, status := Started(JobPrefix(id)))
      case SubmitFailed => s.(status := StartFailed, processing := false);
    RerunEffect(s, next.(uploading := false))
  }

  /** `status.progressPercent || 0`. */
  function ProgressOrZero(p: Option<int>): (r: int)
    ensures r == 0 <==> p == None || p == Some(0)
    ensures p != None ==> r == p.value
  {
    if p.Some? then p.value else 0
  }

  /** The status line a fetched snapshot produces. */
  function TickNotice(js: JobStatus): (n: Notice)
    ensures IsTerminal(js.status) <==> n == Complete || n.ProcessingFailed?
    ensures n == Complete <==> js.status == Completed
    ensures n.ProcessingFailed? ==> n.errorMessage == js.errorMessage
    ensures n.StatusReport? ==> n.state == js.status && n.percent == js.progressPercent
    ensures !IsTerminal(js.status) ==> n == StatusReport(js.status, js.progressPercent)
  {
    match js.status
    case Completed => Complete
    case Failed => ProcessingFailed(js.errorMessage)
    case _ => StatusReport(js.status, js.progressPercent)
  }

  /**
   * One firing of the poll interval. It fires only while armed. A failed query
   * is swallowed and changes nothing. A fetched snapshot is stored and its
   * progress shown (0 when absent); a terminal state ends processing and
   * clears the interval, a non-terminal one keeps both.
   */
  function OnPollTick(s: State, o: PollOutcome): (t: State)
    ensures !s.polling || o.QueryFailed? ==> t == s
    ensures s.polling && o.Fetched? ==>
      t.jobStatus == Some(o.snapshot) && t.progress == ProgressOrZero(o.snapshot.progressPercent) &&
      t.status == TickNotice(o.snapshot) &&
      t.file == s.file && t.jobId == s.jobId && t.uploading == s.uploading
    ensures s.polling && o.Fetched? && IsTerminal(o.snapshot.status) ==> !t.processing && !t.polling
    ensures s.polling && o.Fetched? && !IsTerminal(o.snapshot.status) ==>
      t.processing == s.processing && (Inv(s) ==> t.polling)
    ensures Inv(s) ==> Inv(t)
  {
    if !s.polling then s
    else match o
      case QueryFailed => s
      case Fetched(js) =>
        var stored := s.(jobStatus := Some(js), progress := ProgressOrZero(js.progressPercent),
                         status := TickNotice(js));
        var next := if IsTerminal(js.status) then stored.(processing := false, polling := false)
                    else stored;
        RerunEffect(s, next)
  }

  /** `jobStatus?.outputFileId`, when it is a non-empty id. */
  function DownloadTarget(js: Option<JobStatus>): (r: Option<string>)
    ensures r == None <==> js == None || js.value.outputFileId == None || js.value.outputFileId == Some("")
    ensures r != None ==> js != None && js.value.outputFileId == r
  {
    if js.Some? && js.value.outputFileId.Some? && js.value.outputFileId.value != ""
    then js.value.outputFileId
    else None
  }

  /**
   * handleDownload: with no output id only the status line changes; otherwise
   * the outcome of fetching that file decides the status line.
   */
  function OnDownload(s: State, o: DownloadOutcome): (t: State)
    ensures DownloadTarget(s.jobStatus) == None ==> t == s.(status := NoOutputYet)
    ensures DownloadTarget(s.jobStatus) != None ==>
      t == s.(status := if o == Saved then DownloadStarted else DownloadFailed)
  {
    if DownloadTarget(s.jobStatus) == None then s.(status := NoOutputYet)
    else s.(status := if o == Saved then DownloadStarted else DownloadFailed)
  }

  /** How formatTime renders a processing time; the seconds text is not modelled. */
  datatype TimeLabel = NoTime | Millis(text: string) | Seconds(ms: int)

  /**
   * formatTime: a null or zero time is a dash, a non-zero time under 1000 is
   * its decimal text followed by "ms", anything else goes to the seconds branch.
   */
  function FormatTime(ms: Option<int>): (r: TimeLabel)
    ensures r == NoTime <==> ms == None || ms == Some(0)
    ensures r.Millis? <==> ms.Some? && ms.value != 0 && ms.value < 1000
    ensures r.Millis? ==> r.text == JsText.IntText(ms.value) + "ms"
    ensures r.Millis? ==>
      |r.text| > 2 && r.text[|r.text| - 2..] == "ms" && JsText.ParseInt(r.text[..|r.text| - 2]) == ms
    ensures r.Seconds? ==> ms == Some(r.ms) && r.ms >= 1000
  {
    if ms == None || ms == Some(0) then NoTime
    else if ms.value < 1000 then
      var digits := JsText.IntText(ms.value);
      var text := digits + "ms";
      assert text[..|text| - 2] == digits;
      Millis(text)
    else Seconds(ms.value)
  }

  // ---------------------------------------------------------------------------
  // Runs of events

  /** Everything that can happen to the component, one handler or callback at a time. */
  datatype Event =
    | Select(f: FileInfo)
    | SubmitStart
    | UploadProgress(percent: int)
    | SubmitFinish(submit: SubmitOutcome)
    | Tick(poll: PollOutcome)
    | Download(download: DownloadOutcome)

  function Step(s: State, e: Event): State {
    match e
    case Select(f) => OnFileSelect(s, f)
    case SubmitStart => OnSubmitStart(s)
    case UploadProgress(p) => OnUploadProgress(s, p)
    case SubmitFinish(o) => OnSubmitFinish(s, o)
    case Tick(o) => OnPollTick(s, o)
    case Download(o) => OnDownload(s, o)
  }

  function Run(s: State, es: seq<Event>): State
    decreases |es|
  {
    if es == [] then s else Run(Step(s, es[0]), es[1..])
  }

  /** Every run keeps "an interval is armed iff its guard holds". */
  lemma {:induction false} RunPreservesInv(s: State, es: seq<Event>)
    requires Inv(s)
    ensures Inv(Run(s, es))
    decreases |es|
  {
    if es != [] {
      RunPreservesInv(Step(s, es[0]), es[1..]);
    }
  }

  /** No status snapshot and no armed interval. */
  predicate Quiet(s: State) {
    s.jobStatus == None && !s.polling
  }

  lemma {:induction false} QuietRun(s: State, es: seq<Event>)
    requires Quiet(s)
    ensures Quiet(Run(s, es))
    decreases |es|
  {
    if es != [] {
      QuietRun(Step(s, es[0]), es[1..]);
    }
  }

  /**
   * From mount, no sequence of events ever stores a status snapshot or arms
   * the poll interval: the guard needs a snapshot, only a tick stores one, and
   * a tick needs an armed interval.
   */
  lemma NoRunStartsPolling(es: seq<Event>)
    ensures Run(Initial(), es).jobStatus == None
    ensures !Run(Initial(), es).polling
  {
    QuietRun(Initial(), es);
  }

  /**
   * Without a snapshot, only a failed submit can end processing: once a
   * submit succeeds, processing (and so the disabled submit button) persists
   * through every selection, tick and download.
   */
  lemma {:induction false} ProcessingPersists(s: State, es: seq<Event>)
    requires Quiet(s) && s.processing
    requires forall i :: 0 <= i < |es| ==> es[i] != SubmitFinish(SubmitFailed)
    ensures Run(s, es).processing
    ensures !SubmitEnabled(Run(s, es))
    decreases |es|
  {
    if es != [] {
      ProcessingPersists(Step(s, es[0]), es[1..]);
    }
  }

  predicate AllTicks(es: seq<Event>) {
    forall i :: 0 <= i < |es| ==> es[i].Tick?
  }

  /** A cleared interval never fires again: ticks after it change nothing. */
  lemma {:induction false} IdleTicks(s: State, es: seq<Event>)
    requires !s.polling && AllTicks(es)
    ensures Run(s, es) == s
    decreases |es|
  {
    if es != [] {
      IdleTicks(Step(s, es[0]), es[1..]);
    }
  }

  /** Failed status queries are swallowed: any number of them leaves the state as it was. */
  lemma {:induction false} FailedQueriesChangeNothing(s: State, es: seq<Event>)
    requires forall i :: 0 <= i < |es| ==> es[i] == Tick(QueryFailed)
    ensures Run(s, es) == s
    decreases |es|
  {
    if es != [] {
      FailedQueriesChangeNothing(Step(s, es[0]), es[1..]);
    }
  }

  /** The first fetched snapshot in a run whose state is terminal. */
  function FirstTerminal(es: seq<Event>): Option<JobStatus>
    decreases |es|
  {
    if es == [] then None
    else if es[0].Tick? && es[0].poll.Fetched? && IsTerminal(es[0].poll.snapshot.status)
    then Some(es[0].poll.snapshot)
    else FirstTerminal(es[1..])
  }

  /**
   * A run of ticks from an armed interval stops exactly at the first terminal
   * snapshot, which stays stored with processing ended; with no terminal
   * snapshot the interval stays armed and processing is untouched. The job id,
   * the selection and the uploading flag never change.
   */
  lemma {:induction false} PollingStopsAtFirstTerminal(s: State, es: seq<Event>)
    requires Inv(s) && s.polling && AllTicks(es)
    ensures Run(s, es).jobId == s.jobId && Run(s, es).file == s.file
    ensures Run(s, es).uploading == s.uploading
    ensures FirstTerminal(es) != None ==>
      Run(s, es).jobStatus == FirstTerminal(es) && !Run(s, es).polling && !Run(s, es).processing
    ensures FirstTerminal(es) == None ==>
      Run(s, es).polling && Run(s, es).processing == s.processing
    decreases |es|
  {
    if es != [] {
      var t := Step(s, es[0]);
      if es[0].poll.Fetched? && IsTerminal(es[0].poll.snapshot.status) {
        IdleTicks(t, es[1..]);
      } else {
        PollingStopsAtFirstTerminal(t, es[1..]);
      }
    }
  }

  /** Run over a sequence with one more event at its end. */
  lemma {:induction false} RunAppend(s: State, es: seq<Event>, e: Event)
    ensures Run(s, es + [e]) == Step(Run(s, es), e)
    decreases |es|
  {
    if es == [] {
      assert es + [e] == [e];
    } else {
      assert (es + [e])[1..] == es[1..] + [e];
      RunAppend(Step(s, es[0]), es[1..], e);
    }
  }

  /** Upload-progress callbacks, each reporting a percentage in 0..100. */
  predicate UploadProgressOnly(es: seq<Event>) {
    forall i :: 0 <= i < |es| ==> es[i].UploadProgress? && 0 <= es[i].percent <= 100
  }

  /** Progress callbacks touch only the progress figure and keep it within the upload's half. */
  lemma {:induction false} UploadProgressRun(s: State, es: seq<Event>)
    requires UploadProgressOnly(es)
    ensures Run(s, es) == s.(progress := Run(s, es).progress)
    ensures 0 <= s.progress <= 50 ==> 0 <= Run(s, es).progress <= 50
    decreases |es|
  {
    if es != [] {
      UploadProgressRun(Step(s, es[0]), es[1..]);
    }
  }

  /**
   * A whole submit with a file selected: start, any upload-progress callbacks,
   * then the outcome. Uploading ends, progress stays within 0..50, processing
   * survives only a success, the job id changes only on success, and the
   * snapshot is untouched, so without one no interval is armed afterwards.
   */
  lemma SubmitCycle(s: State, ps: seq<Event>, o: SubmitOutcome)
    requires Inv(s) && s.file != None && UploadProgressOnly(ps)
    ensures var t := Run(s, [SubmitStart] + ps + [SubmitFinish(o)]);
      !t.uploading && t.processing == o.Submitted? && 0 <= t.progress <= 50 &&
      t.file == s.file && t.jobStatus == s.jobStatus &&
      t.jobId == (if o.Submitted? then o.jobId else s.jobId) && Inv(t) &&
      (s.jobStatus == None ==> !t.polling)
  {
    var es := [SubmitStart] + ps + [SubmitFinish(o)];
    assert es[0] == SubmitStart && es[1..] == ps + [SubmitFinish(o)];
    var started := Step(s, SubmitStart);
    RunAppend(started, ps, SubmitFinish(o));
    UploadProgressRun(started, ps);
  }

  // ---------------------------------------------------------------------------
  // The component

  class Upscaler {
    var file: Option<FileInfo>
    var jobId: string
    var jobStatus: Option<JobStatus>
    var status: Notice
    var progress: int
    var uploading: bool
    var processing: bool
    /** An interval is armed in `pollIntervalRef`. */
    var polling: bool

    function Snapshot(): State
      reads this
    {
      State(file, jobId, jobStatus, status, progress, uploading, processing, polling)
    }

    predicate Valid()
      reads this
    {
      Inv(Snapshot())
    }

    constructor ()
      ensures Valid() && Snapshot() == Initial()
    {
      file, jobId, jobStatus, status := None, "", None, Blank;
      progress, uploading, processing, polling := 0, false, false, false;
    }

    /** The polling effect, after a handler that may have changed its dependencies. */
    method RerunPollEffect(prevJobId: string, prevState: Option<JobState>)
      modifies this`polling
      ensures prevJobId != jobId || prevState != StateOf(jobStatus) ==>
        polling == PollGuard(jobId, jobStatus)
      ensures prevJobId == jobId && prevState == StateOf(jobStatus) ==> polling == old(polling)
    {
      if prevJobId != jobId || prevState != StateOf(jobStatus) {
        polling := false;
        if PollGuard(jobId, jobStatus) {
          polling := true;
        }
      }
    }

    method HandleFileSelect(f: FileInfo)
      requires Valid()
      modifies this
      ensures Valid()
      ensures Snapshot() == OnFileSelect(old(Snapshot()), f)
    {
      var error := ValidateFile(f);
      if error.Some? {
        status := Rejected(error.value);
        file := None;
        return;
      }
      var prevJobId, prevState := jobId, StateOf(jobStatus);
      file := Some(f);
      status := Blank;
      jobId := "";
      jobStatus := None;
      RerunPollEffect(prevJobId, prevState);
    }

    method HandleSubmitStart() returns (started: bool)
      requires Valid()
      modifies this
      ensures Valid()
      ensures started <==> old(file) != None
      ensures Snapshot() == OnSubmitStart(old(Snapshot()))
    {
      if file == None {
        status := SelectFileFirst;
        return false;
      }
      uploading := true;
      processing := true;
      progress := 0;
      status := Starting;
      started := true;
    }

    method HandleUploadProgress(percent: int)
      requires Valid()
      modifies this
      ensures Valid()
      ensures Snapshot() == OnUploadProgress(old(Snapshot()), percent)
    {
      progress := HalfRounded(percent);
    }

    method HandleSubmitFinish(outcome: SubmitOutcome)
      requires Valid()
      modifies this
      ensures Valid()
      ensures Snapshot() == OnSubmitFinish(old(Snapshot()), outcome)
    {
      var prevJobId, prevState := jobId, StateOf(jobStatus);
      match outcome {
        case Submitted(id) =>
          jobId := id;
          status := Started(JobPrefix(id));
        case SubmitFailed =>
          status := StartFailed;
          processing := false;
      }
      uploading := false;
      RerunPollEffect(prevJobId, prevState);
    }

    method PollTick(outcome: PollOutcome)
      requires Valid()
      modifies this
      ensures Valid()
      ensures Snapshot() == OnPollTick(old(Snapshot()), outcome)
    {
      if !polling || outcome.QueryFailed? {
        return;
      }
      var js := outcome.snapshot;
      var prevJobId, prevState := jobId, StateOf(jobStatus);
      jobStatus := Some(js);
      progress := ProgressOrZero(js.progressPercent);
      status := TickNotice(js);
      if IsTerminal(js.status) {
        processing := false;
        polling := false;
      }
      RerunPollEffect(prevJobId, prevState);
    }

    method HandleDownload(outcome: DownloadOutcome) returns (target: Option<string>)
      requires Valid()
      modifies this
      ensures Valid()
      ensures target == DownloadTarget(old(jobStatus))
      ensures Snapshot() == OnDownload(old(Snapshot()), outcome)
    {
      target := DownloadTarget(jobStatus);
      if target == None {
        status := NoOutputYet;
        return;
      }
      status := if outcome == Saved then DownloadStarted else DownloadFailed;
    }
  }
}
