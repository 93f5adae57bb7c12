/**
 * The generic upload component: a client-side validator and a state machine
 * over the selected file, the file id (filled in by an upload or typed by the
 * user), the status line, the progress figure and the uploading flag, plus the
 * guard of its download handler and the rules that enable its two buttons and
 * show its progress bar.
 *
 * As in the upscaler, each handler is a pure transition on `State` and a
 * method of class `Uploader` tied to it; the upload and download requests are
 * abstract outcomes.
 */
module FileUpload {
  import opened Wrappers
  import opened Files
  import JsText

  const MaxFileSize: nat := 5 * 1024 * 1024
  const AllowedTypes: seq<string> := ["image/png", "image/jpeg", "application/pdf"]

  /**
   * Accepts PNG, JPEG and PDF files up to 5 MiB inclusive; a file failing both
   * tests gets the type error.
   */
  function ValidateFile(f: FileInfo): (r: Option<FileError>)
    ensures r == None <==>
      (f.mimeType == "image/png" || f.mimeType == "image/jpeg" || f.mimeType == "application/pdf") &&
      f.size <= 5242880
    ensures f.mimeType !in AllowedTypes ==> r == Some(BadType(f.mimeType))
    ensures f.mimeType in AllowedTypes && f.size > 5242880 ==> r == Some(TooLarge(f.size))
  {
    CheckFile(AllowedTypes, MaxFileSize, f)
  }

  /** What the status line says. */
  datatype Notice =
    | Blank
    | Rejected(error: FileError)
    | SelectFileFirst
    | Uploading
    | UploadComplete(fileId: string)
    | UploadFailed

  datatype State = State(
    file: Option<FileInfo>,
    fileId: string,
    status: Notice,
    progress: int,
    uploading: bool)

  /** Result of the upload request, as seen by the `await`. */
  datatype UploadOutcome = Uploaded(fileId: string) | UploadError

  /** The upload button is enabled iff no upload runs and a file is selected. */
  function UploadEnabled(s: State): (enabled: bool)
    ensures enabled <==> !(s.uploading || s.file == None)
  {
    !s.uploading && s.file.Some?
  }

  /** The download button is enabled iff no upload runs and the id field is not empty. */
  function DownloadEnabled(s: State): (enabled: bool)
    ensures enabled <==> !(s.uploading || |s.fileId| == 0)
  {
    !s.uploading && s.fileId != ""
  }

  /** The progress bar is rendered only for a positive progress figure. */
  function ProgressVisible(s: State): (shown: bool)
    ensures shown <==> 1 <= s.progress
  {
    s.progress > 0
  }

  /** The state on mount: both buttons disabled and no progress bar. */
  function Initial(): (s: State)
    ensures !UploadEnabled(s) && !DownloadEnabled(s) && !ProgressVisible(s)
    ensures s.status == Blank
  {
    State(None, "", Blank, 0, false)
  }

  /**
   * handleFileSelect: a rejected file clears the selection and reports the
   * error; an accepted one is selected and clears the status line. The file
   * id, progress and uploading flag are untouched either way.
   */
  function OnFileSelect(s: State, f: FileInfo): (t: State)
    ensures t.fileId == s.fileId && t.progress == s.progress && t.uploading == s.uploading
    ensures ValidateFile(f).Some? ==> t.file == None && t.status == Rejected(ValidateFile(f).value)
    ensures ValidateFile(f) == None ==> t.file == Some(f) && t.status == Blank
    ensures ValidateFile(f) == None && !s.uploading ==> UploadEnabled(t)
  {
    match ValidateFile(f)
    case Some(e) => s.(status := Rejected(e), file := None)
    case None => s.(file := Some(f), status := Blank)
  }

  /**
   * The synchronous part of handleUpload: without a file only the status line
   * changes; with one, uploading starts and progress restarts at 0, which
   * disables both buttons and hides the progress bar.
   */
  function OnUploadStart(s: State): (t: State)
    ensures s.file == None ==> t == s.(status := SelectFileFirst)
    ensures s.file != None ==> t == s.(uploading := true, progress := 0, status := Uploading)
    ensures s.file != None ==> !UploadEnabled(t) && !DownloadEnabled(t) && !ProgressVisible(t)
  {
    if s.file == None then s.(status := SelectFileFirst)
    else s.(uploading := true, progress := 0, status := Uploading)
  }

  /** The upload-progress callback shows the reported percentage as it is. */
  function OnUploadProgress(s: State, percent: int): (t: State)
    ensures t == s.(progress := percent)
    ensures ProgressVisible(t) <==> percent > 0
  {
    s.(progress := percent)
  }

  /**
   * The asynchronous part of handleUpload: uploading ends in every outcome and
   * the file id changes only on success, which then enables the download button.
   */
  function OnUploadFinish(s: State, o: UploadOutcome): (t: State)
    ensures !t.uploading
    ensures t.fileId == (if o.Uploaded? then o.fileId else s.fileId)
    ensures t.status == (if o.Uploaded? then UploadComplete(o.fileId) else UploadFailed)
    ensures t.file == s.file && t.progress == s.progress
    ensures o.Uploaded? && o.fileId != "" ==> DownloadEnabled(t)
    ensures s.file != None ==> UploadEnabled(t)
  {
    var next := match o
      case Uploaded(id) => s.(fileId := id, status := UploadComplete(id))
      case UploadError => s.(status := UploadFailed);
    next.(uploading := false)
  }

  /** Typing in the id field replaces the file id and nothing else. */
  function OnFileIdInput(s: State, text: string): (t: State)
    ensures t == s.(fileId := text)
    ensures DownloadEnabled(t) <==> !s.uploading && text != ""
  {
    s.(fileId := text)
  }

  /**
   * The guard of handleDownload: an id that trims to nothing is refused and no
   * request is made; any other id is requested exactly as typed, untrimmed.
   */
  function DownloadTarget(fileId: string): (r: Option<string>)
    ensures r == None <==> JsText.AllWhitespace(fileId)
    ensures r != None ==> r == Some(fileId)
  {
    if JsText.Trim(fileId) == "" then None else Some(fileId)
  }

  /**
   * An id made only of whitespace enables the download button, yet the
   * handler refuses it.
   */
  lemma WhitespaceIdEnabledButRefused(s: State)
    requires !s.uploading && s.fileId != "" && JsText.AllWhitespace(s.fileId)
    ensures DownloadEnabled(s)
    ensures DownloadTarget(s.fileId) == None
  {
  }

  // ---------------------------------------------------------------------------
  // Runs of events

  datatype Event =
    | Select(f: FileInfo)
    | UploadStart
    | UploadProgress(percent: int)
    | UploadFinish(upload: UploadOutcome)
    | EditFileId(text: string)

  function Step(s: State, e: Event): State {
    match e
    case Select(f) => OnFileSelect(s, f)
    case UploadStart => OnUploadStart(s)
    case UploadProgress(p) => OnUploadProgress(s, p)
    case UploadFinish(o) => OnUploadFinish(s, o)
    case EditFileId(text) => OnFileIdInput(s, text)
  }

  function Run(s: State, es: seq<Event>): State
    decreases |es|
  {
    if es == [] then s else Run(Step(s, es[0]), es[1..])
  }

  lemma {:induction false} RunAppend(s: State, es: seq<Event>, e: Event)
    ensures Run(s, es + [e]) == Step(Run(s, es), e)
    decreases |es|
  {
    if es == [] {
      assert es + [e] == [e];
    } else {
      assert (es + [e])[1..] == es[1..] + [e];
      RunAppend(Step(s, es[0]), es[1..], e);
    }
  }

  /** The events that can put `id` into the file id: a successful upload of it, or typing it. */
  predicate SetsFileId(e: Event, id: string) {
    e == UploadFinish(Uploaded(id)) || e == EditFileId(id)
  }

  /**
   * The file id after any run is the one it started with, or one that a
   * successful upload returned or the user typed during the run.
   */
  lemma {:induction false} FileIdProvenance(s: State, es: seq<Event>)
    ensures Run(s, es).fileId == s.fileId ||
      exists i :: 0 <= i < |es| && SetsFileId(es[i], Run(s, es).fileId)
    decreases |es|
  {
    if es != [] {
      var next := Step(s, es[0]);
      var id := Run(s, es).fileId;
      FileIdProvenance(next, es[1..]);
      if id != next.fileId {
        var i :| 0 <= i < |es[1..]| && SetsFileId(es[1..][i], id);
        assert SetsFileId(es[i + 1], id);
      } else if id != s.fileId {
        assert SetsFileId(es[0], id);
      }
    }
  }

  /** Progress callbacks reporting percentages in 0..100. */
  predicate UploadProgressOnly(es: seq<Event>) {
    forall i :: 0 <= i < |es| ==> es[i].UploadProgress? && 0 <= es[i].percent <= 100
  }

  /** Progress callbacks touch only the progress figure and keep it within 0..100. */
  lemma {:induction false} UploadProgressRun(s: State, es: seq<Event>)
    requires UploadProgressOnly(es)
    ensures Run(s, es) == s.(progress := Run(s, es).progress)
    ensures 0 <= s.progress <= 100 ==> 0 <= Run(s, es).progress <= 100
    decreases |es|
  {
    if es != [] {
      UploadProgressRun(Step(s, es[0]), es[1..]);
    }
  }

  /**
   * A whole upload with a file selected: start, any progress callbacks, then
   * the outcome. Uploading ends, progress stays within 0..100, the selection
   * is kept, and the file id changes only on success.
   */
  lemma UploadCycle(s: State, ps: seq<Event>, o: UploadOutcome)
    requires s.file != None && UploadProgressOnly(ps)
    ensures var t := Run(s, [UploadStart] + ps + [UploadFinish(o)]);
      !t.uploading && 0 <= t.progress <= 100 && t.file == s.file && UploadEnabled(t) &&
      t.fileId == (if o.Uploaded? then o.fileId else s.fileId)
  {
    var es := [UploadStart] + ps + [UploadFinish(o)];
    assert es[0] == UploadStart && es[1..] == ps + [UploadFinish(o)];
    var started := Step(s, UploadStart);
    RunAppend(started, ps, UploadFinish(o));
    UploadProgressRun(started, ps);
  }

  // ---------------------------------------------------------------------------
  // The component

  class Uploader {
    var file: Option<FileInfo>
    var fileId: string
    var uploadStatus: Notice
    var progress: int
    var uploading: bool

    function Snapshot(): State
      reads this
    {
      State(file, fileId, uploadStatus, progress, uploading)
    }

    constructor ()
      ensures Snapshot() == Initial()
    {
      file, fileId, uploadStatus, progress, uploading := None, "", Blank, 0, false;
    }

    method HandleFileSelect(f: FileInfo)
      modifies this
      ensures Snapshot() == OnFileSelect(old(Snapshot()), f)
    {
      var error := ValidateFile(f);
      if error.Some? {
        uploadStatus := Rejected(error.value);
        file := None;
        return;
      }
      file := Some(f);
      uploadStatus := Blank;
    }

    method HandleUploadStart() returns (started: bool)
      modifies this
      ensures started <==> old(file) != None
      ensures Snapshot() == OnUploadStart(old(Snapshot()))
    {
      if file == None {
        uploadStatus := SelectFileFirst;
        return false;
      }
      uploading := true;
      progress := 0;
      uploadStatus := Uploading;
      started := true;
    }

    method HandleUploadProgress(percent: int)
      modifies this
      ensures Snapshot() == OnUploadProgress(old(Snapshot()), percent)
    {
      progress := percent;
    }

    method HandleUploadFinish(outcome: UploadOutcome)
      modifies this
      ensures Snapshot() == OnUploadFinish(old(Snapshot()), outcome)
    {
      match outcome {
        case Uploaded(id) =>
          fileId := id;
          uploadStatus := UploadComplete(id);
        case UploadError =>
          uploadStatus := UploadFailed;
      }
      uploading := false;
    }

    method HandleFileIdInput(text: string)
      modifies this
      ensures Snapshot() == OnFileIdInput(old(Snapshot()), text)
    {
      fileId := text;
    }

    /**
     * The guard of handleDownload, which changes no state: it returns the id to
     * request, or nothing when the id field holds only whitespace.
     */
    method HandleDownload() returns (target: Option<string>)
      ensures target == None <==> JsText.AllWhitespace(fileId)
      ensures target != None ==> target == Some(fileId)
    {
      if JsText.Trim(fileId) == "" {
        return None;
      }
      target := Some(fileId);
    }
  }
}
