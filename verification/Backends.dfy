/** The hardware/software boundary shared by the polling loop and the mock backend. */
module Backends {
  import opened Basics

  datatype JobStatus = QUEUED | RUNNING | COMPLETED | FAILED | CANCELLED

  /** `retryable` is the metadata flag of that name. */
  datatype ExperimentResult = ExperimentResult(
    jobId: string,
    status: JobStatus,
    counts: Option<map<string, int>>,
    retryable: bool,
    error: Option<string>)

  /** What poll_status returns or raises. */
  datatype Polled = Status(status: JobStatus) | PollRaised(error: string)

  /** What fetch_result returns or raises; `Transient` is TransientBackendError. */
  datatype Fetched = Result(result: ExperimentResult) | Transient(error: string) | FetchRaised(error: string)
}
