# Upload and upscaler components, modelled in Dafny

This project models the logic of two React components of a browser front end
for a file service and an image-upscaling service:

- **ImageProcessor** (the image upscaler). It validates a selected image (type allow-list, then a
  50 MiB limit). It submits the image as a processing job. It would poll the job's status on an
  interval only once it holds a status snapshot (the guard at :34), but only a poll tick ever
  stores one: selecting a file nulls it (:89) and a successful submit sets only the job id
  (:111). The model covers the component's fields `file`, `jobId`, `jobStatus`, `status`,
  `progress`, `uploading` and `processing`. A `polling` flag stands for an armed interval in
  `pollIntervalRef`.
- **FileUpload** (the generic uploader). It validates a file (a different allow-list, a 5 MiB
  limit), uploads it with progress reporting, and offers a download by file id. The model
  covers `file`, `fileId`, `uploadStatus`, `progress` and `uploading`.

Each handler is modelled twice, and the two are proved equal:

- a pure transition function on a `State` value (`OnFileSelect`, `OnSubmitFinish`,
  `OnPollTick`, …). Its contract says what the handler does to every field.
- a method of a class (`ImageProcessor.Upscaler`, `FileUpload.Uploader`). It performs the
  handler's setter calls in order on fields and ensures `Snapshot() == On…(old(Snapshot()), …)`.

Network requests are abstract outcome parameters (`Submitted(jobId) | SubmitFailed`,
`Fetched(snapshot) | QueryFailed`, `Uploaded(fileId) | UploadError`, `Saved | SaveFailed`).
One firing of the poll interval is one atomic step. The React effect keyed on
`[jobId, jobStatus?.status]` is `RerunEffect`: when either dependency changed, the old interval
is cleared and a new one is armed exactly when the guard holds. Sequences of events are run by
`Run`, and the trace lemmas are stated over `Run`.

Files: `wrappers.dfy` (Option), `files.dfy` (file record, error variant, shared validator
shape), `jobs.dfy` (job status record and its four states), `js_text.dfy` (JavaScript `trim` and
integer-to-text), `image_processor.dfy`, `file_upload.dfy`.

**What the model shows about the upscaler.** The polling guard needs a non-null job-status
snapshot. Selecting a file nulls it. A successful submit sets only the job id. And only a poll
tick stores a snapshot, which needs an armed interval. So from mount no sequence of events ever
arms the interval (`NoRunStartsPolling`). After a successful submit, `processing` stays true
and the submit button stays disabled through every later selection, tick and download
(`ProcessingPersists`). The model keeps this behaviour as written. It adds no timeout, retry
limit or error propagation to the poll tick, because the component has none.

**What the poll tick does not do.** A tick has no timeout. A failed status query is swallowed
and polling continues (ImageProcessor.tsx:56-58, `FailedQueriesChangeNothing`). A failed job is
reported only on the status line (:48).

## Model

| member | source | states |
|---|---|---|
| `Files.CheckFile` | src/components/FileUpload.tsx:18-26 | A validator accepts a file iff its type is in the allow-list and its size is at most the limit; a file failing both gets the type error, an allowed oversize file the size error |
| `ImageProcessor.ValidateFile` | src/components/ImageProcessor.tsx:69-77 | No error iff the type is image/png, image/jpeg, image/jpg or image/webp and the size is ≤ 52,428,800 bytes (the limit itself is accepted); a disallowed type gets the type error even when oversize |
| `ImageProcessor.PollGuard` | src/components/ImageProcessor.tsx:34 | The interval may be armed iff the job id is non-empty and a snapshot is held whose state is not terminal |
| `ImageProcessor.RerunEffect` | src/components/ImageProcessor.tsx:33-67 | The effect changes only `polling`: when the job id or the job state changed it is cleared and re-armed iff the guard holds, otherwise it is left as it was |
| `ImageProcessor.SubmitEnabled` | src/components/ImageProcessor.tsx:234 | The submit button is enabled iff not (no file, or uploading, or processing) |
| `ImageProcessor.ProgressOrZero` | src/components/ImageProcessor.tsx:39 | `progressPercent || 0` is 0 iff the field is absent or 0, and otherwise the field's value |
| `ImageProcessor.TickNotice` | src/components/ImageProcessor.tsx:41-55 | The status line after a tick says complete iff COMPLETED, failed (with the job's error message) iff FAILED, and for QUEUED or PROCESSING is exactly the status report of that state and the raw progressPercent |
| `ImageProcessor.Initial` | src/components/ImageProcessor.tsx:17-30 | On mount no interval is armed, no snapshot is held, the invariant holds, and the submit button is disabled (the button rule of :234, as the test at src/tests/app.test.tsx:27-31 asserts) |
| `ImageProcessor.OnFileSelect` | src/components/ImageProcessor.tsx:79-93 | A rejected file sets `file` to null and the status to the validator's error, leaving everything else (job id, snapshot, interval) unchanged; an accepted file is selected, clears the status, sets the job id to "" and the snapshot to null, keeps progress/uploading/processing, and leaves no interval armed |
| `ImageProcessor.OnSubmitStart` | src/components/ImageProcessor.tsx:95-104 | With no file only the status changes (to "select a file first"), uploading/processing/progress untouched; with a file uploading and processing become true, progress 0, and the submit button is disabled |
| `ImageProcessor.HalfRounded` | src/components/ImageProcessor.tsx:107-109 | `Math.round(p * 0.5)` is the integer r with 2r−1 ≤ p ≤ 2r (nearest, halves up), and lies in 0..50 for p in 0..100 |
| `ImageProcessor.OnUploadProgress` | src/components/ImageProcessor.tsx:107-109 | An upload-progress callback changes only `progress`, to half the reported percentage rounded, within 0..50 for a percentage in 0..100 |
| `ImageProcessor.JobPrefix` | src/components/ImageProcessor.tsx:112 | `substring(0, 8)` yields the first eight characters of the job id, or all of a shorter one |
| `ImageProcessor.OnSubmitFinish` | src/components/ImageProcessor.tsx:106-119 | Uploading is false after every outcome; processing stays only on success; the job id changes only on success; file, snapshot and progress are untouched; with a null snapshot the interval is not armed |
| `ImageProcessor.OnPollTick` | src/components/ImageProcessor.tsx:35-58 | A tick fires only while armed; a failed query changes nothing; a fetched snapshot is stored with progress = progressPercent or 0; COMPLETED/FAILED end processing and clear the interval; QUEUED/PROCESSING keep processing and the interval; the invariant is kept |
| `ImageProcessor.DownloadTarget` | src/components/ImageProcessor.tsx:123 | The download proceeds iff the snapshot has an output file id that is not empty (`!jobStatus?.outputFileId` also refuses "") |
| `ImageProcessor.OnDownload` | src/components/ImageProcessor.tsx:122-145 | Without an output id only the status changes, to "no output file available yet"; otherwise only the status changes, to started or failed by outcome |
| `ImageProcessor.FormatTime` | src/components/ImageProcessor.tsx:162-166 | Null or 0 renders as a dash; a non-zero time below 1000 renders as its canonical decimal text (`IntText`) followed by "ms", which reads back as the time; anything else goes to the seconds branch |
| `ImageProcessor.RunPreservesInv` | src/components/ImageProcessor.tsx:33-67 | Along any sequence of events, an interval is armed exactly when the job id is non-empty and the snapshot is non-null with state QUEUED or PROCESSING |
| `ImageProcessor.QuietRun` | src/components/ImageProcessor.tsx:34-38 | From a state with no snapshot and no interval, every sequence of events keeps both absent |
| `ImageProcessor.NoRunStartsPolling` | src/components/ImageProcessor.tsx:34 | From mount, no sequence of events stores a snapshot or arms the poll interval: a successful submit cannot start polling on its own |
| `ImageProcessor.ProcessingPersists` | src/components/ImageProcessor.tsx:95-119 | Without a snapshot, processing (and so a disabled submit button) persists through every event except a failed submit |
| `ImageProcessor.IdleTicks` | src/components/ImageProcessor.tsx:44-52 | Once the interval is cleared, further ticks change nothing |
| `ImageProcessor.FailedQueriesChangeNothing` | src/components/ImageProcessor.tsx:56-58 | Any number of failed status queries leaves the whole state unchanged, polling included |
| `ImageProcessor.PollingStopsAtFirstTerminal` | src/components/ImageProcessor.tsx:35-59 | A run of ticks from an armed interval stops at the first COMPLETED/FAILED snapshot, which stays stored with processing ended; without one the interval stays armed and processing untouched; job id, file and uploading never change |
| `ImageProcessor.UploadProgressRun` | src/components/ImageProcessor.tsx:107-109 | Any sequence of upload-progress callbacks changes only `progress` and keeps it within 0..50 |
| `ImageProcessor.SubmitCycle` | src/components/ImageProcessor.tsx:95-120 | A whole submit with a file (start, progress callbacks, outcome) ends with uploading false, progress in 0..50, processing iff success, job id changed iff success, snapshot untouched, and no interval armed when there was no snapshot |
| `ImageProcessor.Upscaler.constructor` | src/components/ImageProcessor.tsx:17-30 | The component starts in the initial state |
| `ImageProcessor.Upscaler.RerunPollEffect` | src/components/ImageProcessor.tsx:33-67 | When the job id or job state changed, the old interval is cleared and one is armed iff the guard holds; otherwise the interval is left as it was |
| `ImageProcessor.Upscaler.HandleFileSelect` | src/components/ImageProcessor.tsx:79-93 | The setter sequence yields exactly `OnFileSelect` of the old state and keeps the invariant |
| `ImageProcessor.Upscaler.HandleSubmitStart` | src/components/ImageProcessor.tsx:95-104 | Reports whether the submit proceeds (iff a file is selected) and yields exactly `OnSubmitStart` |
| `ImageProcessor.Upscaler.HandleUploadProgress` | src/components/ImageProcessor.tsx:107-109 | Yields exactly `OnUploadProgress` |
| `ImageProcessor.Upscaler.HandleSubmitFinish` | src/components/ImageProcessor.tsx:106-119 | The try/catch/finally setters yield exactly `OnSubmitFinish` and keep the invariant |
| `ImageProcessor.Upscaler.PollTick` | src/components/ImageProcessor.tsx:35-58 | The interval callback's setters and clearInterval yield exactly `OnPollTick` and keep the invariant |
| `ImageProcessor.Upscaler.HandleDownload` | src/components/ImageProcessor.tsx:122-145 | Returns the output id it would fetch (none when absent or empty) and yields exactly `OnDownload` |
| `JsText.Trim` | src/components/FileUpload.tsx:66 | `trim()` is a slice `s[i..j]` of the string with only whitespace before `i` and from `j` on; it is empty exactly when the string holds only JavaScript whitespace, and otherwise neither starts nor ends with whitespace |
| `JsText.SkipLeading` | src/components/FileUpload.tsx:66 | The leading scan stops at the first non-whitespace character (or the end) and passes over only whitespace |
| `JsText.SkipTrailing` | src/components/FileUpload.tsx:66 | The trailing scan stops just after the last non-whitespace character (or at its lower bound) and passes over only whitespace |
| `JsText.Digits` | src/components/ImageProcessor.tsx:164 | The decimal text of a non-negative integer is non-empty, all digits, has no leading zero (a text longer than one digit never starts with "0"), and denotes the integer |
| `JsText.IntText` | src/components/ImageProcessor.tsx:164 | The text of an integer in a template literal starts with "-" iff it is negative, has no leading zero after the sign unless it is 0, is exactly "0" for 0, and reads back as that integer |
| `FileUpload.ValidateFile` | src/components/FileUpload.tsx:18-26 | No error iff the type is image/png, image/jpeg or application/pdf and the size is ≤ 5,242,880 bytes (the limit itself accepted); the type error takes precedence over the size error |
| `FileUpload.UploadEnabled` | src/components/FileUpload.tsx:134 | The upload button is enabled iff not (uploading, or no file) |
| `FileUpload.DownloadEnabled` | src/components/FileUpload.tsx:157 | The download button is enabled iff not (uploading, or an empty id) |
| `FileUpload.ProgressVisible` | src/components/FileUpload.tsx:139 | The progress bar is shown iff progress is at least 1 |
| `FileUpload.Initial` | src/components/FileUpload.tsx:8-12 | On mount both buttons are disabled and no progress bar is shown |
| `FileUpload.OnFileSelect` | src/components/FileUpload.tsx:28-37 | A rejected file sets `file` to null with the error status; an accepted one is selected with a cleared status; `fileId`, progress and uploading are untouched either way |
| `FileUpload.OnUploadStart` | src/components/FileUpload.tsx:40-48 | With no file only the status changes (to "select a file"), uploading/progress/fileId untouched; with one uploading is true and progress 0, disabling both buttons and hiding the bar (the rules of :134, :139, :157) |
| `FileUpload.OnUploadProgress` | src/components/FileUpload.tsx:51-53 | A progress callback changes only `progress`, to the reported percentage; the bar shows iff it is positive |
| `FileUpload.OnUploadFinish` | src/components/FileUpload.tsx:50-61 | Uploading is false after every outcome; `fileId` changes only on success, and a non-empty returned id enables the download button; file and progress untouched |
| `FileUpload.OnFileIdInput` | src/components/FileUpload.tsx:150-157 | Typing replaces only the file id; the download button is enabled iff not uploading and the text is non-empty |
| `FileUpload.DownloadTarget` | src/components/FileUpload.tsx:66-72 | An id that is empty or all whitespace is refused with no request; any other id is requested as typed, untrimmed |
| `FileUpload.WhitespaceIdEnabledButRefused` | src/components/FileUpload.tsx:157 | Every non-empty id made only of whitespace enables the download button (:157), yet the handler refuses it (:66) |
| `FileUpload.FileIdProvenance` | src/components/FileUpload.tsx:54 | After any sequence of events the file id is the initial one, or one that a successful upload returned or the user typed |
| `FileUpload.UploadProgressRun` | src/components/FileUpload.tsx:51-53 | Progress callbacks change only `progress` and keep it within 0..100 |
| `FileUpload.UploadCycle` | src/components/FileUpload.tsx:40-62 | A whole upload with a file ends with uploading false, progress in 0..100, the file still selected, the upload button enabled again, and the id changed iff the upload succeeded |
| `FileUpload.Uploader.constructor` | src/components/FileUpload.tsx:8-12 | The component starts in the initial state |
| `FileUpload.Uploader.HandleFileSelect` | src/components/FileUpload.tsx:28-37 | Yields exactly `OnFileSelect` |
| `FileUpload.Uploader.HandleUploadStart` | src/components/FileUpload.tsx:40-48 | Reports whether the upload proceeds (iff a file is selected) and yields exactly `OnUploadStart` |
| `FileUpload.Uploader.HandleUploadProgress` | src/components/FileUpload.tsx:51-53 | Yields exactly `OnUploadProgress` |
| `FileUpload.Uploader.HandleUploadFinish` | src/components/FileUpload.tsx:50-61 | The try/catch/finally setters yield exactly `OnUploadFinish` |
| `FileUpload.Uploader.HandleFileIdInput` | src/components/FileUpload.tsx:154 | Yields exactly `OnFileIdInput` |
| `FileUpload.Uploader.HandleDownload` | src/components/FileUpload.tsx:66-72 | Changes no state; returns no id iff the field is all whitespace, else the id as typed |

## Left out

- The job and file services (src/api/jobservice.ts, src/api/fileservice.ts) are not part of this model: requests, JSON parsing and transport errors become outcome parameters. Only the job status record and its four states come from jobservice.ts:3-16.
- Byte-to-percent conversion in the services, the MB figure in the size messages, and the seconds branch of formatTime (`toFixed`) are floating-point formatting. `FormatTime` returns `Seconds(ms)` for that branch without its text.
- Status and error messages are datatype constructors, not strings. The text of thrown errors is not modelled.
- JavaScript numbers are modelled as integers. This covers `progressPercent`, `processingTimeMs` and the percentages. Fractional and NaN values are not modelled, so `progressPercent || 0` is 0 exactly when the field is absent or 0.
- Interval timing (the 2000 ms period) is left out. One tick is one atomic step, and a cleared interval never fires. The `await` inside the tick (ImageProcessor.tsx:37) allows two things the model does not capture. A query already in flight when the interval is cleared still runs the setters at :38-55 when it returns. Queries that take longer than the period can overlap and return out of order. `ImageProcessor.IdleTicks` and `ImageProcessor.PollingStopsAtFirstTerminal` hold only under this atomic reading. The effect's cleanup on unmount is also left out.
- `ImageProcessor.SubmitCycle`, `FileUpload.UploadCycle`: consider only progress callbacks between start and finish. The other trace lemmas allow any interleaving of events.
- The preview object URL, the `downloadingOutput` flag, drag-over highlighting, the scale and model selectors, and the rendered job details table are UI state that no modelled property depends on.
- Disabled file inputs (ImageProcessor.tsx:203, FileUpload.tsx:130) are not modelled as guards. The drop zones still reach `handleFileSelect` while uploading, so selection is allowed in every state.
- The submit and upload buttons are disabled by the rules at ImageProcessor.tsx:234 and FileUpload.tsx:134, but the model allows the `SubmitStart` and `UploadStart` events in every state; `SubmitEnabled` and `UploadEnabled` state the rules separately. This over-approximates the events the buttons can produce. One consequence is that the failed submit `ImageProcessor.ProcessingPersists` allows cannot come from the user interface at all.
- The File ID text field is disabled while uploading (FileUpload.tsx:155), but typing into it (`EditFileId`) is allowed in every state. This over-approximates the events the field can produce.
- `ImageProcessor.JobPrefix`: counts Unicode scalar values (Dafny characters), while `substring(0, 8)` counts UTF-16 code units; the two differ only for ids holding characters outside the Basic Multilingual Plane.
- Anchor-click downloads, `alert` dialogs and console logging are DOM side effects.
- src/main.ts, src/App.tsx and the compiled files under dist/ are DOM wiring or stale build output and are not part of this model.
