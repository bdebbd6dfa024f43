/**
 * handle_execute: a cache lookup of its own in front of the queue manager.
 */
module Controllers {
  import opened Options
  import opened Text
  import opened Platform
  import opened Store
  import opened Services
  import opened ContainerPool
  import opened Engine
  import opened Meaning
  import opened Invariants
  import opened Shares
  import opened Outcomes
  import opened Executor
  import opened Queue
  import opened Manager

  /**
   * A result that the early lookup can find is returned as it is, unless the cache fails. Any result that is
   * returned at once is the answer to the request; if the list is empty the task has been queued, for want of a
   * free container, and the handler goes on to wait. With no other call in flight there is an error only if the engine
   * fails or the request cannot be served.
   */
  method HandleExecute(w: World, manager: QueueManager, id: TaskId, r: Request, ghost alone: bool,
          ghost bad: set<Prog>, ghost foul: set<Prog>, ghost home: map<nat, string>)
    returns (out: Outcome)
    requires WorldOk(w) && manager.executor.Fit(w, bad, home, "", [])
    requires manager.executor.Entering(alone)
    modifies manager, manager.queue, manager.executor, manager.executor.pool, manager.executor.docker`files,
      manager.executor.docker`past, manager.executor.redis
    ensures manager.executor.Fit(w, bad + foul, home, "", [])
    ensures Since(old(manager.executor.docker.past), manager.executor.docker.past)
    ensures SinceAsked(old(manager.executor.redis.past), manager.executor.redis.past)
    ensures !out.Fault? && (out.Ok? ==> |out.results| <= 1)
    ensures manager.executor.redis.past.failures == old(manager.executor.redis.past).failures ==>
      QuicklyFound(w, r, old(manager.executor.redis.store)) ==>
        && out.Ok? && |out.results| == 1 && manager.tasks == old(manager.tasks)
        && old(manager.executor.redis.store)[QuickKey(w, r)] == ResultEntry(out.results[0])
    ensures out.Ok? && out.results != [] ==>
      && manager.tasks == old(manager.tasks) && manager.queue.inner == old(manager.queue.inner)
      && Served(w, bad + foul, r, out.results[0])
    ensures out == Ok([]) ==>
      && manager.tasks == old(manager.tasks)[id := ExecutionTask([r], Single)]
      && !HasContainer(r, old(manager.executor.pool.pool))
      && var waiting := WaitingAt(old(manager.queue.inner), PairOf(r));
         manager.queue.inner == old(manager.queue.inner)[PairOf(r) := waiting[id := 1]]
    ensures !HasContainer(r, old(manager.executor.pool.pool)) ==>
      !QuicklyFound(w, r, old(manager.executor.redis.store)) ==> out == Ok([])
    ensures alone && out.Err? ==>
      || manager.executor.docker.past.failures > old(manager.executor.docker.past).failures
      || !CanServe(w, r, old(manager.executor.pool.pool))
  {
    hide PoolKeys, Shelf, FreshBuild, OneDocument, Trim, Answers, CanServe, Supported, InOrder, QuicklyFound;
    OrderGrows(w, bad, bad + foul, home, manager.executor.redis.store, manager.executor.docker.files,
               manager.executor.pool.pool);
    OrderIs(w, bad + foul, home, "", [], manager.executor.redis.store, manager.executor.docker.files,
            manager.executor.pool.pool);
    var early := manager.executor.CachedEarly(w, r, bad + foul);
    if early.Some? {
      return Ok([early.value]);
    }
    ghost var spoilt;
    assert bad + foul + {} == bad + foul;
    assert ExecutionTask([r], Single).requests[0] == r;
    CanTakeExactly(manager.executor.pool.pool, PairOf(r), 1);
    out, spoilt := manager.AddTask(w, id, ExecutionTask([r], Single), 1, alone, bad + foul, {}, home);
  }
}
