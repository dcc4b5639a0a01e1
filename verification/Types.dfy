/** The values the scheduler, the worker and the storage layer exchange. */
module Types {
  type Id = nat
  type Ack = nat
  type Url = nat
  type Destination = nat

  type u32 = x: nat | x < 0x1_0000_0000

  datatype Option<+T> = None | Some(value: T)

  datatype Error =
    | Network
    | HttpStatus(code: nat)
    | Io
    | Cancelled
    | RetriesExhausted(last: Error)
    | ManagerShutdown
    | FileExists
    | InvalidHeaderValue
    | InvalidRequest
    | InvalidConfig
    | CommandQueueFull
    | CommandChannelClosed
    | InvalidUrl
    | Unknown
  {
    /** Transport errors and HTTP 5xx are retried; everything else is final. */
    predicate IsRetryable() {
      Network? || (HttpStatus? && 500 <= code < 600)
    }
  }

  datatype Result<+T> = Ok(value: T) | Err(error: Error)

  datatype DownloadResult = DownloadResult(path: Destination, bytes: nat)

  datatype WorkerResult = Finished(result: DownloadResult) | Stopped

  /** What a download's owner is told, once. */
  type Outcome = Result<DownloadResult>

  /** How one worker future ended. */
  type WorkerEnd = Result<WorkerResult>

  /** The answer to a pause or resume request. */
  type Reply = Result<()>

  datatype Request = Request(url: Url, destination: Destination, retries: u32, overwrite: bool)

  datatype EventKind =
    | Queued
    | Started
    | RetryScheduled(attempt: u32, nextDelayMs: nat)
    | PauseStarted
    | Paused
    | CancellationStarted
    | Cancelled
    | Completed
    | Failed(error: Error)
  {
    predicate Terminal() {
      Cancelled? || Completed? || Failed?
    }
  }
}
