/**
 * The life of a queued task, over every interleaving of `add_task` and the workers: inserted into
 * the task map, enqueued, taken by one worker, looked up, executed, and removed or left behind.
 */
module Lifecycle {
  import opened Options
  import opened Text
  import opened Platform
  import opened Queue

  /** A queued task: the trimmed pair of its first request, and its priority. */
  datatype Task = Task(lang: string, ver: string, priority: Priority)

  /** Worker `number` for a pool key. */
  datatype Worker = Worker(key: string, number: nat)

  /** What a worker is doing: waiting in `dequeue`, about to look the task up, executing it, or gone after a panic. */
  datatype Doing = Idle | Picked(id: TaskId) | Executing(id: TaskId) | Dead

  /** Where a task is (history only). */
  datatype Spot = Adding | Queued | PickedBy(worker: Worker) | RunBy(worker: Worker) | Failed | Orphaned | Finished

  type Tally = map<TaskId, nat>

  datatype Board = Board(
    tasks: map<TaskId, Task>,
    adding: set<TaskId>,                // inserted by an add_task that has not enqueued them yet
    inner: map<string, Waiting>,        // the queues
    doing: map<Worker, Doing>,
    spot: map<TaskId, Spot>,            // every id there ever was (history only)
    key: map<TaskId, string>,           // the key each was, or will be, enqueued under (history only)
    dequeued: Tally,                    // how often an id was dequeued (history only)
    executed: Tally,                    // how often a task was executed (history only)
    missed: bool)                       // the branch "Task not found" was taken (history only)

  datatype Move =
    | Insert(id: TaskId, task: Task)
    | Enqueue(id: TaskId)
    | Desert(id: TaskId)                      // add_task is dropped between its two steps
    | Dequeue(worker: Worker, id: TaskId)
    | Lookup(worker: Worker)
    | Complete(worker: Worker)
    | Fail(worker: Worker, dies: bool)        // the execution ends by `?`, or panics

  const WORKERS: nat := 32

  function Workers(): set<Worker> {
    set k, n: nat | k in PoolKeys() && n < WORKERS :: Worker(k, n)
  }

  function KeyOfTask(task: Task): string {
    PoolKey(task.lang, task.ver)
  }

  function Times(tally: Tally, id: TaskId): nat {
    if id in tally then tally[id] else 0
  }

  ghost predicate Start(b: Board) {
    b == Board(map[], {}, map[], map x | x in Workers() :: Idle, map[], map[], map[], map[], false)
  }

  predicate Enabled(b: Board, m: Move) {
    match m
    case Insert(id, task) => id !in b.spot
    case Enqueue(id) => id in b.adding && id in b.tasks
    case Desert(id) => id in b.adding
    case Dequeue(worker, id) =>
      worker in b.doing && b.doing[worker].Idle? && First(WaitingAt(b.inner, worker.key), id)
    case Lookup(worker) => worker in b.doing && b.doing[worker].Picked?
    case Complete(worker) => worker in b.doing && b.doing[worker].Executing?
    case Fail(worker, dies) => worker in b.doing && b.doing[worker].Executing?
  }

  function Enqueued(b: Board, id: TaskId): Board
    requires Enabled(b, Enqueue(id))
  {
    var key := KeyOfTask(b.tasks[id]);
    b.(adding := b.adding - {id}, inner := b.inner[key := WaitingAt(b.inner, key)[id := b.tasks[id].priority]],
       spot := b.spot[id := Queued])
  }

  function Dequeued(b: Board, worker: Worker, id: TaskId): Board
    requires Enabled(b, Dequeue(worker, id))
  {
    b.(inner := b.inner[worker.key := WaitingAt(b.inner, worker.key) - {id}], doing := b.doing[worker := Picked(id)],
       spot := b.spot[id := PickedBy(worker)], dequeued := b.dequeued[id := Times(b.dequeued, id) + 1])
  }

  function LookedUp(b: Board, worker: Worker): Board
    requires Enabled(b, Lookup(worker))
  {
    var id := b.doing[worker].id;
    if id in b.tasks then
      b.(doing := b.doing[worker := Executing(id)], spot := b.spot[id := RunBy(worker)],
         executed := b.executed[id := Times(b.executed, id) + 1])
    else b.(doing := b.doing[worker := Idle], missed := true)
  }

  function Completed(b: Board, worker: Worker): Board
    requires Enabled(b, Complete(worker))
  {
    var id := b.doing[worker].id;
    b.(doing := b.doing[worker := Idle], tasks := b.tasks - {id}, spot := b.spot[id := Finished])
  }

  function Next(b: Board, m: Move): Board
    requires Enabled(b, m)
  {
    match m
    case Insert(id, task) =>
      b.(tasks := b.tasks[id := task], adding := b.adding + {id}, spot := b.spot[id := Adding],
        key := b.key[id := KeyOfTask(task)])
    case Enqueue(id) => Enqueued(b, id)
    case Desert(id) => b.(adding := b.adding - {id}, spot := b.spot[id := Orphaned])
    case Dequeue(worker, id) => Dequeued(b, worker, id)
    case Lookup(worker) => LookedUp(b, worker)
    case Complete(worker) => Completed(b, worker)
    case Fail(worker, dies) =>
      b.(doing := b.doing[worker := if dies then Dead else Idle], spot := b.spot[b.doing[worker].id := Failed])
  }

  ghost predicate Course(boards: seq<Board>, moves: seq<Move>) {
    && |boards| == |moves| + 1 && Start(boards[0])
    && forall i :: 0 <= i < |moves| ==> Enabled(boards[i], moves[i]) && boards[i + 1] == Next(boards[i], moves[i])
  }

  // ---------------------------------------------------------------- the invariant

  /** Each task is in the map until it finishes. */
  ghost predicate TasksFit(tasks: map<TaskId, Task>, adding: set<TaskId>, spot: map<TaskId, Spot>,
          key: map<TaskId, string>) {
    && key.Keys == spot.Keys
    && (forall id :: id in tasks <==> id in spot && spot[id] != Finished)
    && (forall id :: id in tasks && id in key ==> key[id] == KeyOfTask(tasks[id]))
    && (forall id :: id in adding <==> id in spot && spot[id] == Adding)
  }

  /** A queue has the tasks that wait under its key. */
  ghost predicate QueuesFit(inner: map<string, Waiting>, spot: map<TaskId, Spot>, key: map<TaskId, string>) {
    && (forall k, id :: k in inner && id in inner[k] ==> id in spot && spot[id] == Queued && id in key && key[id] == k)
    && (forall id :: id in spot && spot[id] == Queued ==> id in key && key[id] in inner && id in inner[key[id]])
  }

  predicate WorkerFits(x: Worker, doing: Doing, spot: map<TaskId, Spot>, key: map<TaskId, string>) {
    && (doing.Picked? ==>
      doing.id in spot && spot[doing.id] == PickedBy(x) && doing.id in key && key[doing.id] == x.key)
    && (doing.Executing? ==>
      doing.id in spot && spot[doing.id] == RunBy(x) && doing.id in key && key[doing.id] == x.key)
  }

  /** A worker has the task that is with it, and no other. */
  ghost predicate WorkersFit(doing: map<Worker, Doing>, spot: map<TaskId, Spot>, key: map<TaskId, string>) {
    && (forall x :: x in doing ==> WorkerFits(x, doing[x], spot, key))
    && (forall id :: id in spot && spot[id].PickedBy? ==>
      spot[id].worker in doing && doing[spot[id].worker] == Picked(id))
    && (forall id :: id in spot && spot[id].RunBy? ==>
      spot[id].worker in doing && doing[spot[id].worker] == Executing(id))
  }

  function TimesDequeued(spot: Spot): nat {
    if spot.Adding? || spot.Queued? || spot.Orphaned? then 0 else 1
  }

  function TimesExecuted(spot: Spot): nat {
    if spot.RunBy? || spot.Failed? || spot.Finished? then 1 else 0
  }

  ghost predicate Counted(spot: map<TaskId, Spot>, dequeued: Tally, executed: Tally) {
    && dequeued.Keys <= spot.Keys && executed.Keys <= spot.Keys
    && (forall id :: id in spot ==>
      Times(dequeued, id) == TimesDequeued(spot[id]) && Times(executed, id) == TimesExecuted(spot[id]))
  }

  ghost predicate Fit(b: Board) {
    && TasksFit(b.tasks, b.adding, b.spot, b.key) && QueuesFit(b.inner, b.spot, b.key)
    && WorkersFit(b.doing, b.spot, b.key) && Counted(b.spot, b.dequeued, b.executed) && !b.missed
  }

  lemma StartFits(b: Board)
    requires Start(b)
    ensures Fit(b)
  {
  }

  predicate Live(spot: Spot) { spot != Finished && spot != Adding }

  predicate WithWorker(spot: Spot) { spot.PickedBy? || spot.RunBy? }

  lemma TasksStay(tasks: map<TaskId, Task>, adding: set<TaskId>, spot: map<TaskId, Spot>, key: map<TaskId, string>,
          id: TaskId, to: Spot)
    requires TasksFit(tasks, adding, spot, key) && id in spot && Live(spot[id]) && Live(to)
    ensures TasksFit(tasks, adding, spot[id := to], key)
  {
  }

  lemma QueuesStay(inner: map<string, Waiting>, spot: map<TaskId, Spot>, key: map<TaskId, string>, id: TaskId, to: Spot)
    requires QueuesFit(inner, spot, key) && id in spot && !spot[id].Queued? && !to.Queued?
    ensures QueuesFit(inner, spot[id := to], key)
  {
  }

  lemma WorkersStay(doing: map<Worker, Doing>, spot: map<TaskId, Spot>, key: map<TaskId, string>, id: TaskId, to: Spot)
    requires WorkersFit(doing, spot, key) && id in spot && !WithWorker(spot[id]) && !WithWorker(to)
    ensures WorkersFit(doing, spot[id := to], key)
  {
    forall x | x in doing ensures WorkerFits(x, doing[x], spot[id := to], key) {
      assert WorkerFits(x, doing[x], spot, key);
    }
  }

  lemma CountsMove(spot: map<TaskId, Spot>, dequeued: Tally, executed: Tally, id: TaskId, to: Spot, dequeued': Tally,
          executed': Tally)
    requires Counted(spot, dequeued, executed) && id in spot
    requires || (TimesDequeued(to) == TimesDequeued(spot[id]) && dequeued' == dequeued)
             || (TimesDequeued(to) == TimesDequeued(spot[id]) + 1 &&
               dequeued' == dequeued[id := Times(dequeued, id) + 1])
    requires || (TimesExecuted(to) == TimesExecuted(spot[id]) && executed' == executed)
             || (TimesExecuted(to) == TimesExecuted(spot[id]) + 1 &&
               executed' == executed[id := Times(executed, id) + 1])
    ensures Counted(spot[id := to], dequeued', executed')
  {
    forall x | x in spot[id := to]
      ensures Times(dequeued', x) == TimesDequeued(spot[id := to][x]) &&
        Times(executed', x) == TimesExecuted(spot[id := to][x])
    {
      assert x in spot;
    }
  }

  // A task that comes or goes, in each part of the state.

  lemma TasksInsert(tasks: map<TaskId, Task>, adding: set<TaskId>, spot: map<TaskId, Spot>, key: map<TaskId, string>,
          id: TaskId, task: Task)
    requires TasksFit(tasks, adding, spot, key) && id !in spot
    ensures TasksFit(tasks[id := task], adding + {id}, spot[id := Adding], key[id := KeyOfTask(task)])
  {
  }

  lemma QueuesInsert(inner: map<string, Waiting>, spot: map<TaskId, Spot>, key: map<TaskId, string>, id: TaskId,
          k: string)
    requires QueuesFit(inner, spot, key) && id !in spot
    ensures QueuesFit(inner, spot[id := Adding], key[id := k])
  {
  }

  lemma CountsInsert(spot: map<TaskId, Spot>, dequeued: Tally, executed: Tally, id: TaskId)
    requires Counted(spot, dequeued, executed) && id !in spot
    ensures Counted(spot[id := Adding], dequeued, executed)
  {
    assert id !in dequeued && id !in executed;
  }

  lemma WorkersInsert(doing: map<Worker, Doing>, spot: map<TaskId, Spot>, key: map<TaskId, string>, id: TaskId,
          k: string)
    requires WorkersFit(doing, spot, key) && id !in spot
    ensures WorkersFit(doing, spot[id := Adding], key[id := k])
  {
    forall x | x in doing ensures WorkerFits(x, doing[x], spot[id := Adding], key[id := k]) {
      assert WorkerFits(x, doing[x], spot, key);
    }
  }

  lemma TasksAdded(tasks: map<TaskId, Task>, adding: set<TaskId>, spot: map<TaskId, Spot>, key: map<TaskId, string>,
          id: TaskId, to: Spot)
    requires TasksFit(tasks, adding, spot, key) && id in adding && Live(to)
    ensures TasksFit(tasks, adding - {id}, spot[id := to], key)
  {
  }

  lemma QueuesGain(inner: map<string, Waiting>, spot: map<TaskId, Spot>, key: map<TaskId, string>, id: TaskId,
          priority: Priority)
    requires QueuesFit(inner, spot, key) && id in spot && !spot[id].Queued? && id in key
    ensures QueuesFit(inner[key[id] := WaitingAt(inner, key[id])[id := priority]], spot[id := Queued], key)
  {
  }

  lemma QueuesLose(inner: map<string, Waiting>, spot: map<TaskId, Spot>, key: map<TaskId, string>, id: TaskId,
          k: string, to: Spot)
    requires QueuesFit(inner, spot, key) && id in WaitingAt(inner, k) && !to.Queued?
    ensures QueuesFit(inner[k := WaitingAt(inner, k) - {id}], spot[id := to], key)
  {
    var inner', spot' := inner[k := WaitingAt(inner, k) - {id}], spot[id := to];
    assert id in inner[k] && key[id] == k;
    forall k2, x | k2 in inner' && x in inner'[k2]
      ensures x in spot' && spot'[x] == Queued && x in key && key[x] == k2
    {
      assert x in inner[k2] && x != id;
    }
    forall x | x in spot' && spot'[x] == Queued ensures x in key && key[x] in inner' && x in inner'[key[x]] {
      assert x != id;
    }
  }

  /** A worker goes on to what it does next, with the task or without. */
  lemma WorkersMove(doing: map<Worker, Doing>, spot: map<TaskId, Spot>, key: map<TaskId, string>, x: Worker,
          next: Doing, id: TaskId, to: Spot)
    requires WorkersFit(doing, spot, key) && x in doing && id in spot && id in key && key[id] == x.key
    requires (doing[x].Idle? && !WithWorker(spot[id])) || doing[x] == Picked(id) || doing[x] == Executing(id)
    requires || (next == Picked(id) && to == PickedBy(x)) || (next == Executing(id) && to == RunBy(x))
             || (!next.Picked? && !next.Executing? && !WithWorker(to))
    ensures WorkersFit(doing[x := next], spot[id := to], key)
  {
    assert WorkerFits(x, doing[x], spot, key);
    var doing' := doing[x := next];
    forall y | y in doing' ensures WorkerFits(y, doing'[y], spot[id := to], key) {
      assert WorkerFits(y, doing[y], spot, key);
    }
  }

  lemma TasksFinish(tasks: map<TaskId, Task>, adding: set<TaskId>, spot: map<TaskId, Spot>, key: map<TaskId, string>,
          id: TaskId)
    requires TasksFit(tasks, adding, spot, key) && id in spot && Live(spot[id])
    ensures TasksFit(tasks - {id}, adding, spot[id := Finished], key)
  {
  }

  // The moves.

  lemma InsertFits(b: Board, id: TaskId, task: Task)
    requires Fit(b) && Enabled(b, Insert(id, task))
    ensures Fit(Next(b, Insert(id, task)))
  {
    TasksInsert(b.tasks, b.adding, b.spot, b.key, id, task);
    QueuesInsert(b.inner, b.spot, b.key, id, KeyOfTask(task));
    WorkersInsert(b.doing, b.spot, b.key, id, KeyOfTask(task));
    CountsInsert(b.spot, b.dequeued, b.executed, id);
  }

  lemma EnqueueFits(b: Board, id: TaskId)
    requires Fit(b) && Enabled(b, Enqueue(id))
    ensures Fit(Next(b, Enqueue(id)))
  {
    TasksAdded(b.tasks, b.adding, b.spot, b.key, id, Queued);
    QueuesGain(b.inner, b.spot, b.key, id, b.tasks[id].priority);
    WorkersStay(b.doing, b.spot, b.key, id, Queued);
    CountsMove(b.spot, b.dequeued, b.executed, id, Queued, b.dequeued, b.executed);
  }

  lemma DesertFits(b: Board, id: TaskId)
    requires Fit(b) && Enabled(b, Desert(id))
    ensures Fit(Next(b, Desert(id)))
  {
    TasksAdded(b.tasks, b.adding, b.spot, b.key, id, Orphaned);
    QueuesStay(b.inner, b.spot, b.key, id, Orphaned);
    WorkersStay(b.doing, b.spot, b.key, id, Orphaned);
    CountsMove(b.spot, b.dequeued, b.executed, id, Orphaned, b.dequeued, b.executed);
  }

  /** The task that a worker may take waits, in the queue of the worker's key. */
  lemma QueuedIsThere(b: Board, worker: Worker, id: TaskId)
    requires Fit(b) && Enabled(b, Dequeue(worker, id))
    ensures id in b.spot && b.spot[id] == Queued && id in b.key && b.key[id] == worker.key
    ensures id in WaitingAt(b.inner, worker.key)
  {
  }

  lemma DequeuedFits(b: Board, worker: Worker, id: TaskId, dequeued: Tally)
    requires Fit(b) && id in b.spot && b.spot[id] == Queued && id in b.key && b.key[id] == worker.key
    requires id in WaitingAt(b.inner, worker.key) && worker in b.doing && b.doing[worker].Idle?
    requires dequeued == b.dequeued[id := Times(b.dequeued, id) + 1]
    ensures Fit(b.(inner := b.inner[worker.key := WaitingAt(b.inner, worker.key) - {id}],
                   doing := b.doing[worker := Picked(id)], spot := b.spot[id := PickedBy(worker)],
                   dequeued := dequeued))
  {
    hide KeyOfTask;
    TasksStay(b.tasks, b.adding, b.spot, b.key, id, PickedBy(worker));
    QueuesLose(b.inner, b.spot, b.key, id, worker.key, PickedBy(worker));
    WorkersMove(b.doing, b.spot, b.key, worker, Picked(id), id, PickedBy(worker));
    CountsMove(b.spot, b.dequeued, b.executed, id, PickedBy(worker), dequeued, b.executed);
  }

  lemma DequeueFits(b: Board, worker: Worker, id: TaskId)
    requires Fit(b) && Enabled(b, Dequeue(worker, id))
    ensures Fit(Next(b, Dequeue(worker, id)))
  {
    QueuedIsThere(b, worker, id);
    DequeuedFits(b, worker, id, b.dequeued[id := Times(b.dequeued, id) + 1]);
  }

  /** The task that a worker has picked is in the map. */
  lemma PickedIsThere(b: Board, worker: Worker)
    requires Fit(b) && Enabled(b, Lookup(worker))
    ensures var id := b.doing[worker].id;
      id in b.tasks && id in b.spot && b.spot[id] == PickedBy(worker) && id in b.key && b.key[id] == worker.key
  {
    assert WorkerFits(worker, b.doing[worker], b.spot, b.key);
  }

  lemma LookupFits(b: Board, worker: Worker)
    requires Fit(b) && Enabled(b, Lookup(worker))
    ensures Fit(Next(b, Lookup(worker)))
  {
    var id := b.doing[worker].id;
    PickedIsThere(b, worker);
    TasksStay(b.tasks, b.adding, b.spot, b.key, id, RunBy(worker));
    QueuesStay(b.inner, b.spot, b.key, id, RunBy(worker));
    WorkersMove(b.doing, b.spot, b.key, worker, Executing(id), id, RunBy(worker));
    CountsMove(b.spot, b.dequeued, b.executed, id, RunBy(worker), b.dequeued,
    b.executed[id := Times(b.executed, id) + 1]);
  }

  lemma CompleteFits(b: Board, worker: Worker)
    requires Fit(b) && Enabled(b, Complete(worker))
    ensures Fit(Next(b, Complete(worker)))
  {
    var id := b.doing[worker].id;
    assert WorkerFits(worker, b.doing[worker], b.spot, b.key);
    TasksFinish(b.tasks, b.adding, b.spot, b.key, id);
    QueuesStay(b.inner, b.spot, b.key, id, Finished);
    WorkersMove(b.doing, b.spot, b.key, worker, Idle, id, Finished);
    CountsMove(b.spot, b.dequeued, b.executed, id, Finished, b.dequeued, b.executed);
  }

  lemma FailFits(b: Board, worker: Worker, dies: bool)
    requires Fit(b) && Enabled(b, Fail(worker, dies))
    ensures Fit(Next(b, Fail(worker, dies)))
  {
    var id := b.doing[worker].id;
    assert WorkerFits(worker, b.doing[worker], b.spot, b.key);
    TasksStay(b.tasks, b.adding, b.spot, b.key, id, Failed);
    QueuesStay(b.inner, b.spot, b.key, id, Failed);
    WorkersMove(b.doing, b.spot, b.key, worker, if dies then Dead else Idle, id, Failed);
    CountsMove(b.spot, b.dequeued, b.executed, id, Failed, b.dequeued, b.executed);
  }

  lemma MoveFits(b: Board, m: Move)
    requires Fit(b) && Enabled(b, m)
    ensures Fit(Next(b, m))
  {
    match m
    case Insert(id, task) => InsertFits(b, id, task);
    case Enqueue(id) => EnqueueFits(b, id);
    case Desert(id) => DesertFits(b, id);
    case Dequeue(worker, id) => DequeueFits(b, worker, id);
    case Lookup(worker) => LookupFits(b, worker);
    case Complete(worker) => CompleteFits(b, worker);
    case Fail(worker, dies) => FailFits(b, worker, dies);
  }

  lemma {:induction false} CourseFits(boards: seq<Board>, moves: seq<Move>, i: nat)
    requires Course(boards, moves) && i < |boards|
    ensures Fit(boards[i])
  {
    if i == 0 {
      StartFits(boards[0]);
    } else {
      CourseFits(boards, moves, i - 1);
      MoveFits(boards[i - 1], moves[i - 1]);
      assert boards[i - 1 + 1] == Next(boards[i - 1], moves[i - 1]);
    }
  }

  // ---------------------------------------------------------------- what holds in every course

  function AtSpot(b: Board, spot: Spot): set<TaskId> {
    set id | id in b.spot && b.spot[id] == spot
  }

  function Queues(b: Board): set<TaskId> {
    set k, id | k in b.inner && id in b.inner[k] :: id
  }

  function InHand(b: Board): set<TaskId> {
    set x | x in b.doing && (b.doing[x].Picked? || b.doing[x].Executing?) :: b.doing[x].id
  }

  /**
   * The task map holds the tasks being added, waiting, in the hands of a worker, failed or orphaned, each in
   * one of these places.
   */
  lemma Partition(boards: seq<Board>, moves: seq<Move>, i: nat)
    requires Course(boards, moves) && i < |boards|
    ensures var b := boards[i];
      && b.tasks.Keys == b.adding + Queues(b) + InHand(b) + AtSpot(b, Failed) + AtSpot(b, Orphaned)
      && b.adding !! Queues(b) && (b.adding + Queues(b)) !! InHand(b)
      && (b.adding + Queues(b) + InHand(b)) !! AtSpot(b, Failed)
      && (b.adding + Queues(b) + InHand(b) + AtSpot(b, Failed)) !! AtSpot(b, Orphaned)
      && b.tasks.Keys !! AtSpot(b, Finished)
  {
    CourseFits(boards, moves, i);
    InHandIs(boards[i]);
    QueuesIs(boards[i]);
    AddingIs(boards[i]);
    SpotsPart(boards[i]);
  }

  lemma AddingIs(b: Board)
    requires Fit(b)
    ensures b.adding == AtSpot(b, Adding)
  {
  }

  lemma SpotsPart(b: Board)
    requires TasksFit(b.tasks, b.adding, b.spot, b.key)
    ensures b.tasks.Keys == AtSpot(b, Adding) + AtSpot(b, Queued) + WithWorkers(b) + AtSpot(b, Failed) + AtSpot(b,
      Orphaned)
    ensures b.tasks.Keys !! AtSpot(b, Finished)
  {
  }

  function WithWorkers(b: Board): set<TaskId> {
    set id | id in b.spot && WithWorker(b.spot[id])
  }

  lemma InHandIs(b: Board)
    requires Fit(b)
    ensures InHand(b) == WithWorkers(b)
  {
    forall id | id in InHand(b) ensures id in WithWorkers(b) {
      var x :| x in b.doing && (b.doing[x].Picked? || b.doing[x].Executing?) && b.doing[x].id == id;
      assert WorkerFits(x, b.doing[x], b.spot, b.key);
    }
    forall id | id in WithWorkers(b) ensures id in InHand(b) {
      var x := b.spot[id].worker;
      assert x in b.doing && b.doing[x].id == id;
    }
  }

  lemma QueuesIs(b: Board)
    requires Fit(b)
    ensures Queues(b) == AtSpot(b, Queued)
  {
  }

  /** Two workers never have the same task, nor is one waiting in two queues. */
  lemma OneHolder(boards: seq<Board>, moves: seq<Move>, i: nat, x: Worker, y: Worker)
    requires Course(boards, moves) && i < |boards|
    requires x in boards[i].doing && (boards[i].doing[x].Picked? || boards[i].doing[x].Executing?)
    requires y in boards[i].doing && (boards[i].doing[y].Picked? || boards[i].doing[y].Executing?)
    requires boards[i].doing[x].id == boards[i].doing[y].id
    ensures x == y
  {
    CourseFits(boards, moves, i);
    assert WorkerFits(x, boards[i].doing[x], boards[i].spot, boards[i].key);
    assert WorkerFits(y, boards[i].doing[y], boards[i].spot, boards[i].key);
  }

  /** Every id is dequeued at most once and executed at most once; a finished task was executed. */
  lemma AtMostOnce(boards: seq<Board>, moves: seq<Move>, i: nat, id: TaskId)
    requires Course(boards, moves) && i < |boards|
    ensures Times(boards[i].executed, id) <= Times(boards[i].dequeued, id) <= 1
    ensures id in boards[i].spot && (boards[i].spot[id].Finished? || boards[i].spot[id].Failed?) ==>
      Times(boards[i].executed, id) == 1
  {
    CourseFits(boards, moves, i);
  }

  /** Whoever waits goes on waiting, with the same priority, until a worker takes it. */
  lemma WaitsOn(b: Board, m: Move, key: string, id: TaskId)
    requires Fit(b) && Enabled(b, m) && id in WaitingAt(b.inner, key) && !(m.Dequeue? && m.id == id)
    ensures id in WaitingAt(Next(b, m).inner, key)
    ensures WaitingAt(Next(b, m).inner, key)[id] == WaitingAt(b.inner, key)[id]
  {
    if m.Enqueue? {
      assert m.id in b.spot && b.spot[m.id] == Adding;
    }
  }

  lemma {:induction false} WaitsUntil(boards: seq<Board>, moves: seq<Move>, i: nat, j: nat, key: string, id: TaskId)
    requires Course(boards, moves) && i <= j < |boards| && id in WaitingAt(boards[i].inner, key)
    requires forall k :: i <= k < j ==> !(moves[k].Dequeue? && moves[k].id == id)
    ensures id in WaitingAt(boards[j].inner, key)
    ensures WaitingAt(boards[j].inner, key)[id] == WaitingAt(boards[i].inner, key)[id]
  {
    hide Fit;
    if i < j {
      WaitsUntil(boards, moves, i, j - 1, key, id);
      CourseFits(boards, moves, j - 1);
      WaitsOn(boards[j - 1], moves[j - 1], key, id);
      assert boards[j - 1 + 1] == Next(boards[j - 1], moves[j - 1]);
    }
  }

  /** A task that waits for the same pair, and is not taken, has no higher priority than the one a worker takes. */
  lemma HighestFirst(boards: seq<Board>, moves: seq<Move>, i: nat, j: nat, id: TaskId)
    requires Course(boards, moves) && i <= j < |moves| && moves[j].Dequeue?
    requires id in WaitingAt(boards[i].inner, moves[j].worker.key)
    requires forall k :: i <= k < j ==> !(moves[k].Dequeue? && moves[k].id == id)
    ensures var waiting := WaitingAt(boards[j].inner, moves[j].worker.key);
      moves[j].id in waiting && WaitingAt(boards[i].inner, moves[j].worker.key)[id] <= waiting[moves[j].id]
  {
    WaitsUntil(boards, moves, i, j, moves[j].worker.key, id);
    assert Enabled(boards[j], moves[j]);
  }

  /** What waits is in the queue of its own pair, with the priority it came with. */
  ghost predicate OwnPlaces(b: Board) {
    forall key, id :: id in WaitingAt(b.inner, key) ==>
      id in b.tasks && KeyOfTask(b.tasks[id]) == key && WaitingAt(b.inner, key)[id] == b.tasks[id].priority
  }

  lemma OwnPlacesStay(b: Board, m: Move)
    requires Fit(b) && Enabled(b, m) && OwnPlaces(b)
    ensures OwnPlaces(Next(b, m))
  {
    hide Counted, KeyOfTask, First, TasksFit;
    var b' := Next(b, m);
    forall key, id | id in WaitingAt(b'.inner, key)
      ensures id in b'.tasks && KeyOfTask(b'.tasks[id]) == key && WaitingAt(b'.inner, key)[id] == b'.tasks[id].priority
    {
      if m.Complete? {
        assert WorkerFits(m.worker, b.doing[m.worker], b.spot, b.key);
      }
      assert id in WaitingAt(b.inner, key) || m == Enqueue(id);
    }
  }

  lemma {:induction false} OwnPlace(boards: seq<Board>, moves: seq<Move>, i: nat)
    requires Course(boards, moves) && i < |boards|
    ensures OwnPlaces(boards[i])
  {
    hide Fit;
    if i > 0 {
      OwnPlace(boards, moves, i - 1);
      CourseFits(boards, moves, i - 1);
      OwnPlacesStay(boards[i - 1], moves[i - 1]);
      assert boards[i - 1 + 1] == Next(boards[i - 1], moves[i - 1]);
    }
  }

  /** A worker finds the task it has taken: the branch "Task not found" is never taken. */
  lemma AlwaysFound(boards: seq<Board>, moves: seq<Move>, i: nat)
    requires Course(boards, moves) && i < |boards|
    ensures !boards[i].missed
    ensures forall x :: x in boards[i].doing && boards[i].doing[x].Picked? ==> boards[i].doing[x].id in boards[i].tasks
  {
    CourseFits(boards, moves, i);
    forall x | x in boards[i].doing && boards[i].doing[x].Picked? ensures boards[i].doing[x].id in boards[i].tasks {
      assert WorkerFits(x, boards[i].doing[x], boards[i].spot, boards[i].key);
    }
  }

  lemma {:induction false} SameWorkers(boards: seq<Board>, moves: seq<Move>, i: nat)
    requires Course(boards, moves) && i < |boards|
    ensures boards[i].doing.Keys == Workers()
  {
    if i > 0 {
      SameWorkers(boards, moves, i - 1);
      assert boards[i - 1 + 1] == Next(boards[i - 1], moves[i - 1]);
    }
  }

  /** A worker of a configured pair takes and executes only tasks whose trimmed language and version are that pair. */
  lemma OwnPairOnly(boards: seq<Board>, moves: seq<Move>, i: nat, x: Worker)
    requires Course(boards, moves) && i < |boards| && x in boards[i].doing
    requires boards[i].doing[x].Picked? || boards[i].doing[x].Executing?
    ensures boards[i].doing[x].id in boards[i].tasks
    ensures var t := boards[i].tasks[boards[i].doing[x].id];
      (t.lang, t.ver) in PAIRS && x.key == PoolKey(t.lang, t.ver)
  {
    CourseFits(boards, moves, i);
    SameWorkers(boards, moves, i);
    assert WorkerFits(x, boards[i].doing[x], boards[i].spot, boards[i].key);
    var t := boards[i].tasks[boards[i].doing[x].id];
    assert x in Workers();
    PoolKeyUnique(t.lang, t.ver);
  }

  /** The id a move is about. */
  function Subject(b: Board, m: Move): TaskId
    requires Enabled(b, m)
  {
    match m
    case Insert(id, _) => id
    case Enqueue(id) => id
    case Desert(id) => id
    case Dequeue(_, id) => id
    case Lookup(worker) => b.doing[worker].id
    case Complete(worker) => b.doing[worker].id
    case Fail(worker, _) => b.doing[worker].id
  }

  lemma OthersStay(b: Board, m: Move, id: TaskId)
    requires Enabled(b, m) && id in b.spot && id != Subject(b, m)
    ensures id in Next(b, m).spot && Next(b, m).spot[id] == b.spot[id]
  {
  }

  /** No move is about a task that has failed or is orphaned. */
  lemma Settled(b: Board, m: Move)
    requires Fit(b) && Enabled(b, m)
    ensures Subject(b, m) in b.spot ==> var spot := b.spot[Subject(b, m)]; !spot.Failed? && !spot.Orphaned?
  {
    match m
    case Insert(_, _) =>
    case Enqueue(_) =>
    case Desert(_) =>
    case Dequeue(worker, id) => QueuedIsThere(b, worker, id);
    case Lookup(worker) => PickedIsThere(b, worker);
    case Complete(worker) => assert WorkerFits(worker, b.doing[worker], b.spot, b.key);
    case Fail(worker, _) => assert WorkerFits(worker, b.doing[worker], b.spot, b.key);
  }

  lemma Stuck(b: Board, m: Move, id: TaskId)
    requires Fit(b) && Enabled(b, m) && id in b.spot && (b.spot[id].Failed? || b.spot[id].Orphaned?)
    ensures id in Next(b, m).spot && Next(b, m).spot[id] == b.spot[id]
  {
    Settled(b, m);
    OthersStay(b, m, id);
  }

  /** A task whose execution failed, or whose add_task was dropped halfway, stays in the task map for ever. */
  lemma {:induction false} LeftBehind(boards: seq<Board>, moves: seq<Move>, i: nat, j: nat, id: TaskId)
    requires Course(boards, moves) && i <= j < |boards|
    requires id in boards[i].spot && (boards[i].spot[id].Failed? || boards[i].spot[id].Orphaned?)
    ensures id in boards[j].tasks && id in boards[j].spot && boards[j].spot[id] == boards[i].spot[id]
    decreases j - i
  {
    CourseFits(boards, moves, i);
    if i < j {
      assert boards[i + 1] == Next(boards[i], moves[i]);
      Stuck(boards[i], moves[i], id);
      LeftBehind(boards, moves, i + 1, j, id);
    }
  }
}
