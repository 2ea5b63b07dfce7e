/**
 * The scheduler façade (`service.Task`): registration of jobs with the cron
 * engine, batch registration, initialisation from the active task list, and
 * the firings of registered or manually run jobs. The cron engine is a map
 * from task id to the registered job; whether its parser accepts a cron
 * expression is an opaque predicate.
 */
module Service {
  import opened Wrappers
  import opened TaskModel
  import opened Registry
  import opened Handlers
  import opened Lifecycle

  /** What `createJob` closes over and the cron engine keeps under the task id. */
  datatype Job = Job(spec: string, task: Task, handler: Handler)

  /** `createJob`: no job when no handler serves the protocol. */
  function CreateJob(task: Task): (j: Option<Job>)
    ensures j.None? <==> CreateHandler(task.protocol).None?
    ensures j.Some? ==> j.value.task == task && j.value.spec == task.spec
                        && CreateHandler(task.protocol) == Some(j.value.handler)
  {
    match CreateHandler(task.protocol)
    case None => None
    case Some(h) => Some(Job(task.spec, task, h))
  }

  /** Every registration sits under its own task's id, with that task's spec and handler. */
  ghost predicate WellKeyed(jobs: map<int, Job>)
  {
    forall k :: k in jobs ==> jobs[k].task.id == k && Some(jobs[k]) == CreateJob(jobs[k].task)
  }

  /**
   * `Add` on the registrations: with no job nothing changes; otherwise the old
   * registration under the id is removed, and the new one is added if the cron
   * engine accepts the spec. No other id is touched.
   */
  function AddSpec(jobs: map<int, Job>, task: Task, accepts: string -> bool): (r: map<int, Job>)
    ensures CreateJob(task).None? ==> r == jobs
    ensures CreateJob(task).Some? ==>
      && (task.id in r <==> accepts(task.spec))
      && (task.id in r ==> r[task.id] == CreateJob(task).value)
    ensures forall k :: k != task.id ==> (k in r <==> k in jobs)
    ensures forall k :: k != task.id && k in r ==> r[k] == jobs[k]
  {
    match CreateJob(task)
    case None => jobs
    case Some(job) =>
      var removed := jobs - {task.id};
      if accepts(task.spec) then removed[task.id := job] else removed
  }

  /** Adding the same task twice is the same as adding it once. */
  lemma AddIdempotent(jobs: map<int, Job>, task: Task, accepts: string -> bool)
    ensures AddSpec(AddSpec(jobs, task, accepts), task, accepts) == AddSpec(jobs, task, accepts)
  {
  }

  lemma AddPreservesWellKeyed(jobs: map<int, Job>, task: Task, accepts: string -> bool)
    requires WellKeyed(jobs)
    ensures WellKeyed(AddSpec(jobs, task, accepts))
  {
  }

  /**
   * `BatchAdd` on the registrations: each task added in turn. Only the batch's own
   * ids can gain an entry, and an id no task of the batch carries keeps its entry.
   */
  function BatchSpec(jobs: map<int, Job>, tasks: seq<Task>, accepts: string -> bool): (r: map<int, Job>)
    ensures r.Keys <= jobs.Keys + (set t | t in tasks :: t.id)
    ensures forall k :: k in jobs && (forall t :: t in tasks ==> t.id != k) ==> k in r && r[k] == jobs[k]
    decreases |tasks|
  {
    if tasks == [] then jobs
    else AddSpec(BatchSpec(jobs, tasks[..|tasks| - 1], accepts), tasks[|tasks| - 1], accepts)
  }

  lemma {:induction false} BatchPreservesWellKeyed(jobs: map<int, Job>, tasks: seq<Task>, accepts: string -> bool)
    requires WellKeyed(jobs)
    ensures WellKeyed(BatchSpec(jobs, tasks, accepts))
    decreases |tasks|
  {
    if tasks != [] {
      BatchPreservesWellKeyed(jobs, tasks[..|tasks| - 1], accepts);
      AddPreservesWellKeyed(BatchSpec(jobs, tasks[..|tasks| - 1], accepts), tasks[|tasks| - 1], accepts);
    }
  }

  /** An id no task in the batch carries keeps its registration, or its absence. */
  lemma {:induction false} BatchLeavesOtherIds(jobs: map<int, Job>, tasks: seq<Task>, accepts: string -> bool, id: int)
    requires forall j :: 0 <= j < |tasks| ==> tasks[j].id != id
    ensures var m := BatchSpec(jobs, tasks, accepts);
            (id in m <==> id in jobs) && (id in m ==> m[id] == jobs[id])
    decreases |tasks|
  {
    if tasks != [] {
      BatchLeavesOtherIds(jobs, tasks[..|tasks| - 1], accepts, id);
    }
  }

  /**
   * The last task of the batch with a given id decides that id's registration,
   * one at most, independently of the other tasks.
   */
  lemma {:induction false} BatchLastTaskWins(jobs: map<int, Job>, tasks: seq<Task>, accepts: string -> bool, k: nat)
    requires k < |tasks|
    requires forall j :: k < j < |tasks| ==> tasks[j].id != tasks[k].id
    requires CreateJob(tasks[k]).Some?
    ensures var m := BatchSpec(jobs, tasks, accepts);
            && (tasks[k].id in m <==> accepts(tasks[k].spec))
            && (tasks[k].id in m ==> m[tasks[k].id] == CreateJob(tasks[k]).value)
    decreases |tasks|
  {
    var last := |tasks| - 1;
    if k < last {
      assert tasks[..last][k] == tasks[k];
      BatchLastTaskWins(jobs, tasks[..last], accepts, k);
    }
  }

  /** The package-level state of the service: the cron engine, the running registry and the log store. */
  class Scheduler {
    var jobs: map<int, Job>
    var running: Instance
    var store: LogStore
    const accepts: string -> bool

    ghost predicate Valid()
      reads this
    {
      WellKeyed(jobs)
    }

    constructor (accepts: string -> bool, store: LogStore)
      ensures Valid() && jobs == map[] && fresh(running) && running.status == map[]
      ensures this.store == store && this.accepts == accepts
    {
      this.accepts := accepts;
      this.store := store;
      jobs := map[];
      running := new Instance();
    }

    /** `Task.Add`. */
    method Add(task: Task)
      requires Valid()
      modifies this`jobs
      ensures Valid()
      ensures jobs == AddSpec(old(jobs), task, accepts)
    {
      var job := CreateJob(task);
      if job.None? {
        return;
      }
      jobs := jobs - {task.id};
      if accepts(task.spec) {
        jobs := jobs[task.id := job.value];
      }
      AddPreservesWellKeyed(old(jobs), task, accepts);
    }

    /** `Task.BatchAdd`: `Add` for each task in order. */
    method BatchAdd(tasks: seq<Task>)
      requires Valid()
      modifies this`jobs
      ensures Valid()
      ensures jobs == BatchSpec(old(jobs), tasks, accepts)
    {
      for i := 0 to |tasks|
        invariant Valid()
        invariant jobs == BatchSpec(old(jobs), tasks[..i], accepts)
      {
        assert tasks[..i + 1][..i] == tasks[..i];
        Add(tasks[i]);
      }
      assert tasks[..|tasks|] == tasks;
    }

    /**
     * `Task.Initialize`: a new, empty cron engine and running registry, then
     * every active task added; a load error or an empty list adds nothing.
     */
    method Initialize(active: Result<seq<Task>, Error>)
      modifies this`jobs, this`running
      ensures Valid()
      ensures fresh(running) && running.status == map[]
      ensures active.Err? ==> jobs == map[]
      ensures active.Ok? ==> jobs == BatchSpec(map[], active.value, accepts)
    {
      jobs := map[];
      running := new Instance();
      if active.Err? {
        return;
      }
      if |active.value| == 0 {
        return;
      }
      BatchAdd(active.value);
    }

    /**
     * The cron engine firing the job registered under `id`; nothing happens
     * for an unregistered id. Registrations are not changed by a firing.
     */
    method Trigger(id: int, env: nat -> Env) returns (ghost f: Option<Firing>)
      requires Valid()
      modifies running, store
      ensures f.Some? <==> id in jobs
      ensures f.None? ==> running.status == old(running.status) && store.entries == old(store.entries)
      ensures f.Some? ==>
        && jobs[id].task.id == id
        && FiringEffect(jobs[id].task, jobs[id].handler, env, old(running.status), running.status,
                        old(store.entries), store.entries, f.value)
    {
      if id !in jobs {
        return None;
      }
      var job := jobs[id];
      var firing := Fire(job.task, job.handler, env, running, store);
      return Some(firing);
    }

    /**
     * `Task.Run`, one firing run to completion. When no handler serves the
     * protocol Go calls a nil job; the model returns None and changes nothing.
     */
    method Run(task: Task, env: nat -> Env) returns (ghost f: Option<Firing>)
      modifies running, store
      ensures f.None? <==> CreateHandler(task.protocol).None?
      ensures f.None? ==> running.status == old(running.status) && store.entries == old(store.entries)
      ensures f.Some? ==>
        FiringEffect(task, CreateHandler(task.protocol).value, env, old(running.status), running.status,
                     old(store.entries), store.entries, f.value)
    {
      var job := CreateJob(task);
      if job.None? {
        return None;
      }
      var firing := Fire(job.value.task, job.value.handler, env, running, store);
      return Some(firing);
    }
  }
}
