/**
 * One firing of a task's job (the closure built by `createJob`): guard check,
 * start log, retry engine, final log update, and release of the guard on
 * every exit path. Persistence is an in-memory log store whose writes may fail.
 */
module Lifecycle {
  import opened Wrappers
  import opened TaskModel
  import opened Registry
  import opened Handlers
  import opened Retry

  /** The fields `updateTaskLog` writes into a log entry. */
  datatype LogUpdate = LogUpdate(status: Status, retryTimes: int8, result: string)

  /** The entry `createTaskLog` writes: a snapshot of the task, no retries and no result yet. */
  function NewLogEntry(task: Task, status: Status): (e: LogEntry)
    ensures e.taskId == task.id && e.name == task.name && e.spec == task.spec
    ensures e.protocol == task.protocol && e.command == task.command && e.timeout == task.timeout
    ensures e.status == status && e.retryTimes == 0 && e.result == ""
    ensures e.hostname != "" <==> task.protocol == SSH
    ensures task.protocol == SSH ==> e.hostname == task.alias + "-" + task.hostName
  {
    LogEntry(task.id, task.name, task.spec, task.protocol, task.command, task.timeout,
             if task.protocol == SSH then task.alias + "-" + task.hostName else "",
             status, 0, "")
  }

  /**
   * `updateTaskLog`'s mapping: Finish exactly when there is no error; on
   * Failure the error text, a space and the output are stored.
   */
  function LogUpdateFor(r: TaskResult): (u: LogUpdate)
    ensures u.status == Finish <==> r.err.None?
    ensures u.status == Failure <==> r.err.Some?
    ensures u.retryTimes == r.retryTimes
    ensures r.err.None? ==> u.result == r.result
    ensures r.err.Some? ==> u.result == r.err.value.message + " " + r.result
  {
    match r.err
    case None => LogUpdate(Finish, r.retryTimes, r.result)
    case Some(e) => LogUpdate(Failure, r.retryTimes, e.message + " " + r.result)
  }

  /** The stored text always ends with the output, and on Failure starts with the error text. */
  lemma LogUpdateKeepsOutput(r: TaskResult)
    ensures var u := LogUpdateFor(r);
            && |r.result| <= |u.result|
            && u.result[|u.result| - |r.result|..] == r.result
            && (r.err.Some? ==> u.result[..|r.err.value.message| + 1] == r.err.value.message + " ")
  {
    var u := LogUpdateFor(r);
    if r.err.Some? {
      var m := r.err.value.message;
      assert u.result == (m + " ") + r.result;
    }
  }

  /** An entry after an update: status, retries and result replaced, snapshot untouched. */
  function ApplyUpdate(e: LogEntry, u: LogUpdate): LogEntry
  {
    e.(status := u.status, retryTimes := u.retryTimes, result := u.result)
  }

  /** The task log table; ids are positions. */
  class LogStore {
    var entries: seq<LogEntry>

    constructor ()
      ensures entries == []
    {
      entries := [];
    }

    /** Inserts an entry, or fails and changes nothing; which one is not determined. */
    method Create(e: LogEntry) returns (id: int, ok: bool)
      modifies this
      ensures ok ==> id == |old(entries)| && entries == old(entries) + [e]
      ensures !ok ==> entries == old(entries)
    {
      ok :| true;
      if ok {
        id := |entries|;
        entries := entries + [e];
      } else {
        id := 0;
      }
    }

    /** Applies an update to an existing entry, or fails and changes nothing. */
    method Update(id: int, u: LogUpdate) returns (ok: bool)
      modifies this
      ensures ok ==> 0 <= id < |old(entries)| && entries == old(entries)[id := ApplyUpdate(old(entries)[id], u)]
      ensures !ok ==> entries == old(entries)
    {
      ok :| true;
      if !(0 <= id < |entries|) {
        ok := false;
      }
      if ok {
        entries := entries[id := ApplyUpdate(entries[id], u)];
      }
    }
  }

  /**
   * The handler's outcome at each attempt, each attempt meeting its own collaborators.
   * The platform flag `windows` is a constant of the process in Go; it may vary
   * here only because every result holds for any `env`, a constant one included.
   */
  function Attempts(h: Handler, task: Task, env: nat -> Env): nat -> Outcome
  {
    (i: nat) => RunHandler(h, task, env(i))
  }

  /** How a firing went; only `Executed` called the handler. */
  datatype Firing =
    | Cancelled(logged: bool)       // a run was in progress; a Cancel entry was written if `logged`
    | StartLogFailed                // the Running entry could not be written; nothing ran
    | Executed(result: TaskResult, calls: nat, sleeps: seq<int>, updated: bool)

  /**
   * The effect of one firing of `task` with handler `h`, from registry
   * `status0` and log `entries0` to `status1` and `entries1`.
   */
  ghost predicate FiringEffect(task: Task, h: Handler, env: nat -> Env,
                               status0: map<int, bool>, status1: map<int, bool>,
                               entries0: seq<LogEntry>, entries1: seq<LogEntry>, f: Firing)
  {
    var wasRunning := task.id in status0 && status0[task.id];
    var run := RetrySeries(task.retryTimes, Attempts(h, task, env));
    // guard: a non-multi task already running is cancelled and nothing else happens
    && (task.multi == 0 && wasRunning <==> f.Cancelled?)
    && (f.Cancelled? ==>
          && status1 == status0
          && entries1 == entries0 + (if f.logged then [NewLogEntry(task, Cancel)] else []))
    // the guard is released on every other path, and untouched for multi tasks
    && (!f.Cancelled? && task.multi == 0 ==> status1 == status0[task.id := false])
    && (task.multi != 0 ==> status1 == status0)
    // a failed start log: nothing ran and nothing was written
    && (f.StartLogFailed? ==> entries1 == entries0)
    // otherwise exactly one entry, Running, then updated with the result if that write succeeded
    && (f.Executed? ==>
          && f.result == run.result
          && f.calls == run.calls
          && f.sleeps == Backoff(if f.calls == 0 then 0 else f.calls - 1)
          && entries1 == entries0 +
               [if f.updated then ApplyUpdate(NewLogEntry(task, Running), LogUpdateFor(f.result))
                else NewLogEntry(task, Running)])
  }

  /** The job body of `createJob` for one firing. */
  method Fire(task: Task, h: Handler, env: nat -> Env, running: Instance, store: LogStore)
    returns (ghost f: Firing)
    modifies running, store
    ensures FiringEffect(task, h, env, old(running.status), running.status,
                         old(store.entries), store.entries, f)
    ensures task.multi == 0 && !f.Cancelled? ==> !running.Has(task.id)
  {
    if task.multi == 0 && running.Has(task.id) {
      var _, logged := store.Create(NewLogEntry(task, Cancel));
      return Cancelled(logged);
    }
    if task.multi == 0 {
      running.Add(task.id);
    }
    var logId, ok := store.Create(NewLogEntry(task, Running));
    if !ok {
      if task.multi == 0 {
        running.Done(task.id);
      }
      return StartLogFailed;
    }
    var r, sleeps, calls := ExecJob(task.retryTimes, Attempts(h, task, env));
    var updated := store.Update(logId, LogUpdateFor(r));
    if task.multi == 0 {
      running.Done(task.id);
    }
    return Executed(r, calls, sleeps, updated);
  }
}
