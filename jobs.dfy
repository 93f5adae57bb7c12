/** The image-processing job record returned by the job service's status query. */
module Jobs {
  import opened Wrappers

  /** The four values of the job's `status` field. */
  datatype JobState = Queued | Processing | Completed | Failed

  /**
   * One status snapshot. `progressPercent` is optional because the component
   * reads it with a `|| 0` fallback. The `scaleFactor` and `modelName` fields and
   * the timestamps other than the processing time are not read by the modelled
   * code and are left out.
   */
  datatype JobStatus = JobStatus(
    jobId: string,
    inputFileId: string,
    outputFileId: Option<string>,
    status: JobState,
    progressPercent: Option<int>,
    errorMessage: Option<string>,
    processingTimeMs: Option<int>)

  predicate IsTerminal(s: JobState) {
    s == Completed || s == Failed
  }
}
