/**
 * The values the scheduler core works on: the task definition it reads, the
 * outcome of one handler attempt, the result of a retry series and the log
 * entry it persists.
 */
module TaskModel {
  import opened Wrappers

  /** Go's `int8`, the type of `RetryTimes` and of the retry loop's counters. */
  newtype int8 = x: int | -128 <= x < 128

  /** Two's-complement wrap-around of an integer into `int8`, as Go's int8 arithmetic does. */
  function Wrap8(x: int): (r: int8)
    ensures -128 <= x < 128 ==> r as int == x
    ensures (r as int - x) % 256 == 0
  {
    (((x + 128) % 256) - 128) as int8
  }

  /**
   * The execution protocol of a task. The numeric codes of the models package
   * are not part of this model; any code other than the three known ones is `Other`.
   */
  datatype Protocol = HTTP | SSH | LocalCommand | Other(code: int)

  /** A task joined with its host (the source's `models.TaskHost`), read-only to the core. */
  datatype Task = Task(
    id: int,
    name: string,          // the task's own name (`Task.Name`)
    spec: string,          // cron expression
    protocol: Protocol,
    command: string,       // shell command, or URL for HTTP
    timeout: int,          // seconds; <= 0 means no timeout
    retryTimes: int8,
    multi: int,            // 0 = at most one run at a time
    hostName: string,      // host's name, used as the SSH address
    alias: string,
    port: int,
    username: string,
    password: string,
    privateKey: string,
    authType: int)

  /** A Go `error` value: only its `Error()` text matters to the core. */
  datatype Error = Error(message: string)

  /** What one call of a handler's `Run` returns: output text and an error or nil. */
  datatype Outcome = Outcome(output: string, err: Option<Error>)

  /** The source's `TaskResult`. */
  datatype TaskResult = TaskResult(result: string, err: Option<Error>, retryTimes: int8)

  /** Status of a task log entry. */
  datatype Status = Running | Finish | Failure | Cancel

  /** A persisted task log entry; the start time is not modelled. */
  datatype LogEntry = LogEntry(
    taskId: int,
    name: string,
    spec: string,
    protocol: Protocol,
    command: string,
    timeout: int,
    hostname: string,
    status: Status,
    retryTimes: int8,
    result: string)
}
