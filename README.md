# gocron scheduling core, modelled in Dafny

This project models the execution core of gocron's `service/task.go`. It covers four parts, each run one step at a time:

- **Running registry** (`Instance`). It maps a task id to "a run is in progress". `has` reads it, `add` sets the flag, and `done` clears the flag but keeps the key. It is modelled as the class `Registry.Instance`, whose `map<int, bool>` field is updated in place.
- **Handlers.** `createHandler` picks the HTTP, SSH or local-command variant from the task's protocol. The local handler refuses an empty command. It then runs `cmd /C` or `/bin/bash -c`, and on Windows it transcodes the output, replacing it with a fixed message if that fails. The HTTP handler builds a GET request and treats every status except 200 as a failure. The SSH handler hands its configuration to the SSH primitive and returns that primitive's result unchanged. Every collaborator is passed in as a function in `Handlers.Env`: the shell, the transcoder, the HTTP client and the SSH primitive.
- **Retry engine** (`execJob`). It is the method `Retry.ExecJob`, a `while` loop over Go's `int8` counters, proved equal to the function `Retry.RetrySeries`. The handler is given as the outcome of each 0-based attempt. The engine does not sleep: it records each backoff, in minutes, in a ghost sequence.
- **Job lifecycle and façade.** `Lifecycle.Fire` is the job body built by `createJob`:
  1. the guard check, which writes a Cancel entry when the task is already running;
  2. marking the task as running;
  3. writing the Running entry, and aborting if that write fails;
  4. the retry engine;
  5. the Finish or Failure update;
  6. releasing the guard on every exit path.

  The log table is the class `Lifecycle.LogStore`. Its `Create` and `Update` may fail, and which way they go is not determined. The cron engine is the `jobs` map of `Service.Scheduler`, from task id to registered job. `Add`, `BatchAdd`, `Initialize`, `Trigger` and `Run` are methods on it. `Add`, `BatchAdd` and `Initialize` are proved against the functions `AddSpec` and `BatchSpec`. `Trigger` and `Run` are proved to have the effect `FiringEffect`, the same predicate that specifies `Fire`.

The model follows the code, including these cases where the code behaves in a way one might not expect:

- **RetryTimes of 127.** `execTimes` is computed in `int8` arithmetic, so 1 + 127 wraps to -128. The loop then never runs: the handler is never called, and the result has no error, so the firing is logged as Finish (`Retry.MaxRetriesNeverRuns`). For every other value the bound is `1 + max(0, RetryTimes)` (`Retry.ExecTimesIsOnePlusRetries`).
- **Negative RetryTimes.** A negative value gives exactly one attempt. If that attempt fails, the result reports the negative configured value, not 0.
- **Errors before a status code.** A failure to build the request, to send it, or to read the body returns empty output and that error. Only a response that was read completely is classified by its status code.
- **A failed AddFunc.** `Add` removes the old registration before it calls `AddFunc`. If the cron engine then rejects the spec, the task is left with no registration at all.

## Model

| member | source | states |
|---|---|---|
| `TaskModel.Wrap8` | service/task.go:269-273 | int8 arithmetic: values in range are kept, and the result is congruent to the input modulo 256 |
| `Registry.Instance.constructor` | service/task.go:55 | the registry starts with no key |
| `Registry.Instance.Has` | service/task.go:26-33 | true exactly when the key is present and its flag is true |
| `Registry.Instance.Add` | service/task.go:35-37 | the flag for the key becomes true, so `Has` holds for it; no other key changes |
| `Registry.Instance.Done` | service/task.go:39-41 | the flag becomes false and the key stays; `Has` is then false for it; no other key changes |
| `Handlers.CreateHandler` | service/task.go:253-265 | a handler exactly for HTTP, SSH and LocalCommand, each its own variant; nil for any other protocol |
| `Handlers.CreateHandlerInverse` | service/task.go:253-265 | selection is a bijection between the three known protocols and the handler variants |
| `Handlers.LocalShellCall` | service/task.go:106-133 | no executor call exactly when the command is empty; otherwise one call with the task's timeout, running `cmd /C <command>` on Windows and `/bin/bash -c <command>` elsewhere |
| `Handlers.LocalRun` | service/task.go:106-133 | an empty command gives empty output and the "invalid command" error, whatever the executor does. Otherwise the executor's error is always returned. On Unix the executor's outcome is returned as is; on Windows the output is the transcoded text, or the fixed message when transcoding fails |
| `Handlers.HttpRequestFor` | service/task.go:139-149 | a GET to the command as URL with exactly two headers, `Content-type: application/x-www-form-urlencoded` and `User-Agent: golang/gocron`; a deadline only when the timeout is positive, and then equal to it |
| `Handlers.HttpStatusClassification` | service/task.go:162-167 | for a response that was read, the output is the body and the error is nil exactly for status 200; otherwise the error text is the fixed prefix and the code, and the code can be read back from it |
| `Handlers.HttpRun` | service/task.go:138-168 | a request, transport or body-read error is returned unchanged, with empty output. For a response the output is the body, the error is nil exactly for status 200, and otherwise it is the status error for that code |
| `Handlers.ParseFormatInt` | service/task.go:164 | the decimal text of `%d` reads back as the same integer |
| `Handlers.SshConfigFor` | service/task.go:174-182 | the SSH configuration carries the task's host name, port, timeout, user, password, auth type and private key |
| `Handlers.RunHandler` | service/task.go:98-184 | each variant runs its own decision: the HTTP and local handlers as above; the SSH handler returns the primitive's outcome for the task's host, credentials and command |
| `Retry.ExecTimes` | service/task.go:269-272 | the loop bound is 1 for RetryTimes <= 0, 1 + RetryTimes up to 126, and -128 at 127 |
| `Retry.ExecTimesIsOnePlusRetries` | service/task.go:268-272 | below 127, the number of attempts is `1 + max(0, RetryTimes)` |
| `Retry.RunFrom` | service/task.go:276-289 | a run from attempt i makes at least one and at most the remaining number of calls |
| `Retry.RetrySeries` | service/task.go:267-290 | the function form of `execJob`. With a non-positive loop bound it makes no call and returns empty output, nil and the configured RetryTimes; otherwise it makes between one call and the bound. `RunFromShape` gives the rest of its value |
| `Retry.ExecJob` | service/task.go:267-290 | the loop's result and call count are those of `RetrySeries`. One sleep of j + 1 minutes is recorded before retry j + 1, so there are `calls - 1` sleeps: none before the first attempt and none after the last |
| `Retry.BackoffIsLinear` | service/task.go:281-286 | the backoff before retry j + 1 is j + 1 minutes, and there are exactly f of them |
| `Retry.RunFromShape` | service/task.go:276-289 | every call except the last one failed. A success returns its output, nil and the 0-based attempt index. A failure means every attempt was made, and the result has the last output and error and the configured RetryTimes |
| `Retry.CallsBounded` | service/task.go:276-282 | at most `max(0, execTimes)` calls, and none after the first success |
| `Retry.SuccessCountsPriorFailures` | service/task.go:277-279 | a successful result's RetryTimes is the number of failed attempts before the success, and the output is that attempt's |
| `Retry.SuccessAt` | service/task.go:276-279 | if attempts 0..k-1 fail and attempt k succeeds, the result is that output, nil and RetryTimes k, after k + 1 calls |
| `Retry.Exhaustion` | service/task.go:281-289 | if every attempt fails, all of them are made. The result has the last output and error and the configured RetryTimes, not the loop counter |
| `Retry.MaxRetriesNeverRuns` | service/task.go:269-276 | with RetryTimes 127 the handler is never called and the result is empty output, nil error and RetryTimes 127 |
| `Lifecycle.NewLogEntry` | service/task.go:187-203 | the entry copies the task's id, name, spec, protocol, command and timeout. The hostname is set, as alias-host, exactly for SSH tasks. There are no retries and no result yet |
| `Lifecycle.LogUpdateFor` | service/task.go:206-221 | Finish exactly when the error is nil, Failure otherwise. The retries are copied. On Failure the result is the error text, a space and the output; otherwise it is the output unchanged |
| `Lifecycle.LogUpdateKeepsOutput` | service/task.go:209-212 | the stored result ends with the output, and on Failure it begins with the error text and a space |
| `Lifecycle.LogStore.Create` | service/task.go:200-202 | either appends the entry and returns its id, or fails and changes nothing |
| `Lifecycle.LogStore.Update` | service/task.go:216-220 | either rewrites status, retries and result of an existing entry, or fails and changes nothing |
| `Lifecycle.Fire` | service/task.go:229-248 | its effect is `FiringEffect`: the firing is cancelled exactly when a non-multi task is already running; it then leaves the registry unchanged and writes at most one Cancel entry. Otherwise a non-multi task's flag is false on every exit path, and a multi task never touches the registry. A failed start log writes nothing and calls no handler. A completed firing runs `RetrySeries` and leaves one entry: Running, or updated with `LogUpdateFor` when the update succeeds |
| `Service.CreateJob` | service/task.go:224-228 | no job exactly when no handler serves the protocol; otherwise the job closes over the task, its spec and its handler |
| `Service.AddSpec` | service/task.go:77-91 | with no job nothing changes. Otherwise the id is registered exactly when the cron engine accepts the spec, and then with this task's job. No other id changes |
| `Service.AddIdempotent` | service/task.go:84-87 | adding a task twice is the same as adding it once |
| `Service.AddPreservesWellKeyed` | service/task.go:84-87 | every registration stays under its own task's id, with that task's spec and handler |
| `Service.BatchPreservesWellKeyed` | service/task.go:70-74 | a batch keeps every registration under its own task's id |
| `Service.BatchSpec` | service/task.go:70-74 | the batch, as a function on the registrations: only ids carried by some task of the batch can gain a registration, and an id that no task of the batch carries keeps its registration |
| `Service.BatchLeavesOtherIds` | service/task.go:70-74 | an id that no task in the batch carries keeps its registration, or its absence |
| `Service.BatchLastTaskWins` | service/task.go:70-74 | when the last task in the batch with a given id has a handler, that task alone decides the id's registration |
| `Service.Scheduler.constructor` | service/task.go:17-18 | a scheduler starts with no registration and an empty registry |
| `Service.Scheduler.Add` | service/task.go:77-91 | the registrations become `AddSpec` of the old ones, and stay well keyed |
| `Service.Scheduler.BatchAdd` | service/task.go:70-74 | the registrations become `BatchSpec` of the old ones, with each task added in order |
| `Service.Scheduler.Initialize` | service/task.go:52-67 | a new empty registry. Registrations are empty after a load error, and are the batch of active tasks otherwise; an empty list gives no registration |
| `Service.Scheduler.Trigger` | service/task.go:86-87 | firing a registered id has exactly the effect of `Fire` on that job's task and handler, with the same guard, logging, retry result and release; an unregistered id changes nothing |
| `Service.Scheduler.Run` | service/task.go:94-96 | a manual run has exactly the effect of `Fire` with the task's handler, with the same guard, logging, retry result and release. With no handler, nothing changes |

## Left out

- Concurrency. The `go` statement in `Run` and the cron engine's concurrent firings are not modelled: each firing runs to completion before the next one starts. The model therefore cannot show the unsynchronised map access of the running registry, or two firings that both see "not running".
- Run: with no handler, Go still starts the nil job with a `go` statement, and Go's `go` statement on the nil job stops the process with a fatal runtime error. The model returns `None` and changes nothing; process termination is not modelled.
- Initial state. The model's scheduler starts out usable and empty. Before `Initialize`, Go has a nil `Cron` and a nil registry map: an `Add` that reaches `Cron.RemoveJob` (task.go:86), or a firing of a non-multi task at `runInstance.add` (task.go:235), would panic. That zero state is not modelled.
- Time. There are no real sleeps: `time.Sleep` becomes the ghost list of backoff minutes. `time.Now` is left out, so log entries have no start time. Handler timeouts are passed on to the collaborators, and their enforcement is not modelled.
- Logging. The `logger` calls only write messages, so they are omitted.
- Persistence. The `models` persistence layer becomes `LogStore`: entry ids are positions in a sequence, and a failing write is a choice the model does not fix. Update's rows-affected count is not modelled. `ActiveList` is an input of `Initialize`, either a list of tasks or an error.
- The cron library. Expression parsing becomes the opaque predicate `accepts`. Timing and `Start` are not modelled, and `Trigger` stands for the engine calling a registered job. `Initialize` replaces `Cron` without stopping the engine it replaces. An engine left running by an earlier `Initialize` would keep firing its old jobs; that is not modelled, because the model has only one `jobs` map, which `Initialize` empties. Jobs are keyed by the integer id, not by its decimal text, which identifies the same job.
- Foreign calls. Process spawning, GBK-to-UTF-8 transcoding, the HTTP client (request building, transport, body reading) and `ssh.Exec` are opaque functions of the handler's environment. For HTTP, only the classification of their results is modelled.
- Protocol codes. The numeric protocol constants of the models package are not part of this model: `Protocol` has the three known variants and `Other` for any other code.
