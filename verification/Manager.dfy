/**
 * The queue manager: a task is executed at once if the pool has containers enough, and else put
 * into the task map and a queue, from which the workers take it.
 */
module Manager {
  import opened Options
  import opened Text
  import opened Platform
  import opened Store
  import opened Services
  import opened Custody
  import opened ContainerPool
  import opened Engine
  import opened Meaning
  import opened Invariants
  import opened Shares
  import opened Outcomes
  import opened Executor
  import opened Queue

  datatype ExecutionType = Single | Parallel | Batch

  datatype ExecutionTask = ExecutionTask(requests: seq<Request>, executionType: ExecutionType)

  /** How many containers must be free for a task to be executed at once. */
  function Required(t: ExecutionType, n: nat): nat {
    if t.Single? then 1 else n
  }

  /** Containers can be taken for the task: one if it is a single execution, else one for each request. */
  predicate Admits(pool: Pool, task: ExecutionTask)
    requires task.requests != []
  {
    var key := PairOf(task.requests[0]);
    match task.executionType
    case Single => CanTake(pool, key, 1)
    case Parallel => CanTake(pool, key, |task.requests|)
    case Batch => CanTake(pool, key, |task.requests|)
  }

  lemma {:induction false} CanTakeExactly(pool: Pool, key: string, n: nat)
    ensures CanTake(pool, key, n) <==> n <= Depth(pool, key)
  {
    if n > 0 && Depth(pool, key) > 0 {
      CanTakeExactly(Take(pool, key).0, key, n - 1);
    }
  }

  lemma AdmitsExactly(pool: Pool, task: ExecutionTask)
    requires task.requests != []
    ensures Admits(pool, task) <==>
      Required(task.executionType, |task.requests|) <= Depth(pool, PairOf(task.requests[0]))
  {
    var key := PairOf(task.requests[0]);
    CanTakeExactly(pool, key, Required(task.executionType, |task.requests|));
  }

  /** The results are the answers to the requests. */
  ghost predicate ServesTask(w: World, bad: set<Prog>, task: ExecutionTask, results: seq<Visible>) {
    var requests := task.requests;
    match task.executionType
    case Single =>
      requests == [] ||
      (|results| == 1 &&
       (Clean(w, bad, ProgramOf(requests[0])) ==> Answers(w, requests[0], requests[0].stdin, results[0])))
    case Parallel =>
      |results| == |requests| && AllAnswered(w, bad, requests, results)
    case Batch =>
      |results| == |requests| &&
      (requests == [] || (Clean(w, bad, ProgramOf(requests[0])) ==> BatchAnswers(w, requests, results)))
  }

  /** What any execution of the task may come to. */
  ghost predicate MayEnd(w: World, bad: set<Prog>, task: ExecutionTask, out: Outcome) {
    var requests := task.requests;
    && (out.Ok? ==> ServesTask(w, bad, task, out.results))
    && (out.Fault? ==> task.executionType.Batch? && |requests| >= 3)
    && (requests == [] || task.executionType.Parallel? ==> out.Ok?)
    && (requests != [] && task.executionType.Single? && !Supported(requests[0]) ==> out.Err?)
    && (requests != [] && task.executionType.Batch? && !BatchSupported(requests) ==> out.Err?)
  }

  /** Its requests are such that nothing but a failure or a lack of permits can keep it from its results. */
  predicate CanServeTask(w: World, task: ExecutionTask, pool: Pool) {
    var requests := task.requests;
    requests == [] ||
    match task.executionType
    case Single => CanServe(w, requests[0], pool)
    case Parallel => true
    case Batch => CanServeBatch(w, requests, pool)
  }

  /**
   * Such a task, executed with no other call in flight and without a failure of the engine, has its results, but for
   * a batch with no second permit, three requests or more, and a first one that ends well, which faults.
   */
  ghost predicate Ends(w: World, bad: set<Prog>, task: ExecutionTask, out: Outcome, permits: nat) {
    var requests := task.requests;
    if task.executionType.Batch? && requests != [] then
      !out.Err? &&
      (Clean(w, bad, ProgramOf(requests[0])) ==>
        (out.Fault? <==> permits == 1 && |requests| >= 3 && EndsWell(w, requests[0])))
    else out.Ok?
  }

  /**
   * A batch that was admitted for execution at once and can read a free permit never faults, has
   * max_parallel containers for every chunk but the last, and runs no two requests of a chunk on one of them.
   */
  lemma AdmittedBatch(c: Call, out: Outcome, log: seq<seq<nat>>, permits: nat, entry: Pool, pool: Pool, first: nat,
          ran: seq<Tried>)
    requires Undisturbed(c, out, log, permits, entry, pool) && c.rest != [] && permits > 0
    requires Depth(entry, KeyOf(ProgOf(c))) >= Required(ExecutionType.Batch, Count(c)) &&
      Distinct(entry[KeyOf(ProgOf(c))])
    requires RanIn(ran, 0, [first] + Flat(log))
    ensures var m := Min(permits, |c.rest|);
      && !out.Fault? && (forall j :: 0 <= j < |log| - 1 ==> |log[j]| == m)
      && forall i, j :: 0 <= i < j < |ran| && ran[i].k > 0 && ran[j].k > 0 ==>
        (ran[i].k - 1) / m == (ran[j].k - 1) / m ==> ran[i].box != ran[j].box
  {
    var m := Min(permits, |c.rest|);
    AdmittedShare(permits, Count(c), |entry[KeyOf(ProgOf(c))]|);
    forall i, j | 0 <= i < j < |ran| && ran[i].k > 0 && ran[j].k > 0
      ensures (ran[i].k - 1) / m == (ran[j].k - 1) / m ==> ran[i].box != ran[j].box
    {
      UndisturbedApart(c, out, log, permits, entry, pool, first, ran, i, j);
    }
  }

  class QueueManager {
    const queue: ExecutionQueue
    var tasks: map<TaskId, ExecutionTask>
    const executor: CodeExecutor

    constructor (queue: ExecutionQueue, executor: CodeExecutor)
      ensures this.queue == queue && this.executor == executor && tasks == map[]
    {
      this.queue, this.executor, tasks := queue, executor, map[];
    }

    /**
     * A task is executed; other calls act between its operations, and spoil `foul`, unless it is `alone`. Only
     * a batch may have spoilt its own program.
     */
    method Perform(w: World, task: ExecutionTask, ghost alone: bool, ghost bad: set<Prog>, ghost foul: set<Prog>,
            ghost home: map<nat, string>)
      returns (out: Outcome, ghost spoilt: bool)
      requires WorldOk(w) && executor.Fit(w, bad, home, "", []) && executor.Entering(alone)
      modifies executor, executor.pool, executor.docker`files, executor.docker`past, executor.redis
      ensures spoilt ==>
        && task.executionType.Batch? && task.requests != []
        && SpoilCause(ProgOf(BatchOf(task.requests)), old(executor.docker.past), executor.docker.past,
                      old(executor.redis.past), executor.redis.past)
      ensures executor.Fit(w, bad + foul + Spoils(task.requests, spoilt), home, "", [])
      ensures MayEnd(w, bad + foul + Spoils(task.requests, spoilt), task, out)
      ensures Since(old(executor.docker.past), executor.docker.past)
      ensures SinceAsked(old(executor.redis.past), executor.redis.past)
      ensures executor.inside == 0 && (alone ==> executor.permits == old(executor.permits))
      ensures alone && executor.docker.past.failures == old(executor.docker.past).failures ==>
        CanServeTask(w, task, old(executor.pool.pool)) ==> Ends(w, bad + foul, task, out, old(executor.permits))
    {
      hide PoolKeys, Shelf, Trim, SpoilCause, FreshBuild, OneDocument, Answers, BatchAnswers, CanServe, CanServeBatch,
        EndsWell, Supported, BatchSupported, AllAnswered, InOrder;
      spoilt := false;
      assert bad + foul + {} == bad + foul;
      match task.executionType
      case Single =>
        if task.requests == [] {
          OrderGrows(w, bad, bad + foul, home, executor.redis.store, executor.docker.files, executor.pool.pool);
          out := Ok([]);
        } else {
          out := executor.Execute(w, task.requests[0], alone, bad, foul, home);
        }
      case Parallel =>
        var results := executor.ExecuteParallel(w, task.requests, alone, bad, foul, home);
        out := Ok(results);
      case Batch =>
        ghost var first, log;
        out, spoilt, first, log := executor.ExecuteBatch(w, task.requests, alone, bad, foul, home);
    }

    /**
     * add_task: executed at once if enough containers are free, else put into the map and then into the queue
     * of its pair.
     */
    method AddTask(w: World, id: TaskId, task: ExecutionTask, priority: Priority, ghost alone: bool,
            ghost bad: set<Prog>, ghost foul: set<Prog>, ghost home: map<nat, string>)
      returns (out: Outcome, ghost spoilt: bool)
      requires WorldOk(w) && executor.Fit(w, bad, home, "", []) && executor.Entering(alone)
      modifies this, queue, executor, executor.pool, executor.docker`files, executor.docker`past, executor.redis
      ensures spoilt ==>
        && task.executionType.Batch? && task.requests != []
        && SpoilCause(ProgOf(BatchOf(task.requests)), old(executor.docker.past), executor.docker.past,
                      old(executor.redis.past), executor.redis.past)
      ensures executor.Fit(w, bad + foul + Spoils(task.requests, spoilt), home, "", [])
      ensures Since(old(executor.docker.past), executor.docker.past)
      ensures SinceAsked(old(executor.redis.past), executor.redis.past)
      ensures task.requests == [] ==> out.Err? && tasks == old(tasks) && queue.inner == old(queue.inner)
      ensures task.requests != [] ==>
        if Admits(old(executor.pool.pool), task) then
          && tasks == old(tasks) && queue.inner == old(queue.inner)
          && MayEnd(w, bad + foul + Spoils(task.requests, spoilt), task, out)
          && (alone && executor.docker.past.failures == old(executor.docker.past).failures ==>
                CanServeTask(w, task, old(executor.pool.pool)) ==>
                  Ends(w, bad + foul, task, out, old(executor.permits)))
        else
          && tasks == old(tasks)[id := task] && out == Ok([]) && executor.pool.pool == old(executor.pool.pool)
          && var key := PairOf(task.requests[0]);
             queue.inner == old(queue.inner)[key := WaitingAt(old(queue.inner), key)[id := priority]]
    {
      hide PoolKeys, Shelf, SpoilCause, FreshBuild, OneDocument, MayEnd, CanServeTask, Ends, Admits, InOrder;
      spoilt := false;
      assert bad + foul + {} == bad + foul;
      if task.requests == [] {
        OrderGrows(w, bad, bad + foul, home, executor.redis.store, executor.docker.files, executor.pool.pool);
        return Err, false;
      }
      AdmitsExactly(executor.pool.pool, task);
      var lang, ver := Trim(task.requests[0].language), Trim(task.requests[0].version);
      var required := if task.executionType.Single? then 1 else |task.requests|;
      var available := executor.pool.AvailableContainers(lang, ver);
      if available >= required {
        out, spoilt := Perform(w, task, alone, bad, foul, home);
      } else {
        OrderGrows(w, bad, bad + foul, home, executor.redis.store, executor.docker.files, executor.pool.pool);
        tasks := tasks[id := task];
        queue.Enqueue(id, lang, ver, priority);
        out := Ok([]);
      }
    }

    /**
     * process_next, given that a task waits: one of the highest priority is taken, executed, and
     * removed from the map if and only if its execution ends well.
     */
    method ProcessNext(w: World, lang: string, ver: string, ghost alone: bool, ghost bad: set<Prog>,
            ghost foul: set<Prog>, ghost home: map<nat, string>)
      returns (id: TaskId, out: Outcome, ghost spoilt: bool)
      requires WorldOk(w) && executor.Fit(w, bad, home, "", []) && executor.Entering(alone)
      requires WaitingAt(queue.inner, PoolKey(lang, ver)) != map[]
      modifies this, queue, executor, executor.pool, executor.docker`files, executor.docker`past, executor.redis
      ensures spoilt ==>
        && id in old(tasks) && old(tasks)[id].executionType.Batch? && old(tasks)[id].requests != []
        && SpoilCause(ProgOf(BatchOf(old(tasks)[id].requests)), old(executor.docker.past), executor.docker.past,
                      old(executor.redis.past), executor.redis.past)
      ensures Since(old(executor.docker.past), executor.docker.past)
      ensures SinceAsked(old(executor.redis.past), executor.redis.past)
      ensures var waiting := WaitingAt(old(queue.inner), PoolKey(lang, ver));
        id in waiting && forall x :: x in waiting ==> waiting[x] <= waiting[id]
      ensures queue.inner == old(queue.inner)[PoolKey(lang, ver) := WaitingAt(old(queue.inner),
        PoolKey(lang, ver)) - {id}]
      ensures id !in old(tasks) ==> out.Err? && executor.Fit(w, bad + foul, home, "", [])
      ensures alone && executor.docker.past.failures == old(executor.docker.past).failures && id in old(tasks) ==>
        CanServeTask(w, old(tasks)[id], old(executor.pool.pool)) ==>
          Ends(w, bad + foul, old(tasks)[id], out, old(executor.permits))
      ensures tasks == if out.Ok? then old(tasks) - {id} else old(tasks)
      ensures id in old(tasks) ==> var task, worse := old(tasks)[id], bad + foul;
        && executor.Fit(w, worse + Spoils(task.requests, spoilt), home, "", [])
        && MayEnd(w, worse + Spoils(task.requests, spoilt), task, out)
    {
      hide PoolKeys, Shelf, Trim, SpoilCause, FreshBuild, OneDocument, ServesTask, CanServeTask, Ends, InOrder;
      var taken := queue.TryDequeue(lang, ver);
      id, spoilt := taken.value, false;
      if id in tasks {
        out, spoilt := Perform(w, tasks[id], alone, bad, foul, home);
        if out.Ok? {
          tasks := tasks - {id};
        }
      } else {
        OrderGrows(w, bad, bad + foul, home, executor.redis.store, executor.docker.files, executor.pool.pool);
        out := Err;
      }
    }
  }
}
