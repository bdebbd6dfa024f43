/**
 * No deadlock and termination: a call waits for nothing but its first permit, and every move uses
 * up some of a finite amount of work.
 */
module Progress {
  import opened Options
  import opened Text
  import opened Platform
  import opened Keys
  import opened Store
  import opened Custody
  import opened Engine
  import opened Invariants
  import opened Moves
  import opened Reachability

  // ---------------------------------------------------------------- no deadlock

  lemma HolderHas(w: World, s: State, id: nat)
    requires Inv(w, s) && id in s.cu.held
    ensures Has(s, id, 0)
  {
    assert CallOk(w, s, id);
    forall x | x in s.cu.held[id] ensures x in s.files {
      assert x in HeldOf(s, id);
    }
  }

  lemma UnfinishedSlot(slots: seq<Slot>) returns (slot: nat)
    requires !AllFinished(slots)
    ensures slot < |slots| && !Finished(slots[slot])
  {
    slot :| slot < |slots| && !Finished(slots[slot]);
  }

  /** A call with a permit can always move: it never waits for a second one, nor for a container. */
  lemma HolderMoves(w: World, s: State, id: nat) returns (slot: nat)
    requires Inv(w, s) && id in s.cu.held
    ensures Ready(s, id, slot)
  {
    HolderHas(w, s, id);
    assert CallOk(w, s, id);
    slot := 0;
    var c := s.calls[id];
    if c.phase.Chunk? && !AllFinished(c.phase.slots) {
      slot := UnfinishedSlot(c.phase.slots);
    }
  }

  ghost predicate AllDone(s: State) {
    forall id :: 0 <= id < |s.calls| ==> s.calls[id].phase.Done?
  }

  ghost predicate CanMove(s: State) {
    exists id: nat, slot: nat :: Ready(s, id, slot)
  }

  /** Some call can move unless all are done, if the semaphore has a permit at all. */
  lemma NoDeadlock(w: World, s: State)
    requires Inv(w, s) && w.total > 0
    ensures CanMove(s) <==> !AllDone(s)
  {
    if !AllDone(s) {
      var id: nat :| id < |s.calls| && !s.calls[id].phase.Done?;
      assert CallOk(w, s, id);
      if s.cu.held == map[] {
        assert |s.cu.held| == 0;
        assert Ready(s, id, 0);
      } else {
        var h :| h in s.cu.held;
        var slot := HolderMoves(w, s, h);
      }
    }
  }

  /** MAX_CONCURRENT_CONTAINERS=0 makes a semaphore without permits: then no `execute` ever starts. */
  lemma DeadlockWithoutPermits(w: World, s: State, id: nat, slot: nat)
    requires Inv(w, s) && w.total == 0 && id < |s.calls| && s.calls[id].phase.Waiting?
    ensures !Ready(s, id, slot)
  {
  }

  lemma AllDoneFree(w: World, s: State)
    requires Inv(w, s) && AllDone(s)
    ensures s.cu.permits == w.total && Held(s.cu) == {}
  {
    forall id: nat ensures id !in s.cu.held {
      if id < |s.calls| {
        assert CallOk(w, s, id);
      }
    }
    assert s.cu.held == map[];
  }

  // ---------------------------------------------------------------- the work left

  function SlotWork(slot: Slot): nat {
    match slot case Idle => 3 case Missed => 2 case Ran(_) => 1 case Got(_) => 0 case Broken => 0
  }

  function SlotsWork(slots: seq<Slot>): (r: nat)
    ensures r <= 3 * |slots|
  {
    if slots == [] then 0 else SlotWork(slots[0]) + SlotsWork(slots[1..])
  }

  /** More than all the work of one chunk of a batch of n. */
  function Round(n: nat): nat { 6 * n + 10 }

  /** The moves a call that holds `held` containers has left, at most. */
  function Work(c: Call, held: nat): nat {
    var n, rounds := Count(c), Left(c) * Round(Count(c));
    match c.phase
    case Done(_) => 0
    case Finishing(_) => held + 1
    case Chunk(slots) => rounds + SlotsWork(slots) + 1
    case Filling(left) => rounds + 3 * n + 2 + 2 * left
    case Loading(left) => rounds + 3 * n + 3 + 2 * left
    case Draining => rounds + 5 * n + 5 + held
    case Sizing => n * Round(n)
    case Deciding(_) => n * Round(n) + 1
    case Storing(_) => n * Round(n) + 2
    case Running => n * Round(n) + 3
    case Writing => n * Round(n) + 4
    case Lookup => n * Round(n) + 5
    case Archiving => n * Round(n) + 6
    case Compiling => n * Round(n) + 7
    case Uploading(_) => n * Round(n) + 8
    case Artifact => n * Round(n) + 9
    case Admitted => n * Round(n) + 10
    case Waiting => n * Round(n) + 11
    case Looking => n * Round(n) + 12
  }

  function WorkOf(s: State, id: nat): nat
    requires id < |s.calls|
  {
    Work(s.calls[id], |HeldOf(s, id)|)
  }

  lemma {:induction false} SlotWorkDrops(slots: seq<Slot>, i: nat, x: Slot)
    requires i < |slots| && SlotWork(x) < SlotWork(slots[i])
    ensures SlotsWork(slots[i := x]) < SlotsWork(slots)
  {
    if i == 0 {
      assert slots[i := x][1..] == slots[1..];
    } else {
      assert slots[i := x][1..] == slots[1..][i - 1 := x];
      SlotWorkDrops(slots[1..], i - 1, x);
    }
  }

  lemma RoundLess(a: nat, b: nat, n: nat)
    requires a < b
    ensures a * Round(n) + Round(n) <= b * Round(n)
  {
    assert (b - a - 1) * Round(n) >= 0;
    assert b * Round(n) == a * Round(n) + Round(n) + (b - a - 1) * Round(n);
  }

  /** The work of a call before it reads the permits is all its rounds and one move a phase. */
  lemma RoundsPositive(n: nat)
    requires n > 0
    ensures n * Round(n) >= Round(n) >= 6 * n + 10
  {
    RoundLess(0, n, n);
  }

  lemma WorkPositive(c: Call, held: nat)
    requires !c.phase.Done?
    ensures Work(c, held) > 0
  {
    RoundsPositive(Count(c));
  }

  lemma DropWork(s: State, id: nat)
    requires id < |s.calls| && id in s.cu.held && !s.calls[id].phase.Done?
    ensures WorkOf(Drop(s, id), id) < WorkOf(s, id)
  {
    WorkPositive(s.calls[id], |HeldOf(s, id)|);
    assert Drop(s, id).calls[id].phase.Done?;
  }

  lemma LooksWork(w: World, s: State, id: nat, how: How)
    requires Formed(w, s, id) && Ready(s, id, 0) && s.calls[id].phase.Looking?
    ensures WorkOf(Looks(w, s, id, how), id) < WorkOf(s, id)
  {
  }

  lemma WaitsWork(w: World, s: State, id: nat)
    requires Formed(w, s, id) && Ready(s, id, 0) && s.calls[id].phase.Waiting?
    ensures WorkOf(Waits(s, id), id) < WorkOf(s, id)
  {
  }

  lemma StartedWork(c: Call, c': Call, held: nat, held': nat)
    requires c.phase.Admitted? && c'.rest == c.rest && held' <= 1
    requires c'.phase.Finishing? || c'.phase.Artifact? || c'.phase.Lookup?
    ensures Work(c', held') < Work(c, held)
  {
    RoundsPositive(Count(c));
  }

  lemma StartsWork(w: World, s: State, id: nat)
    requires Formed(w, s, id) && Has(s, id, 0) && s.calls[id].phase.Admitted?
    ensures WorkOf(Starts(s, id), id) < WorkOf(s, id)
  {
    StartedWork(s.calls[id], Starts(s, id).calls[id], |HeldOf(s, id)|, |HeldOf(Starts(s, id), id)|);
  }

  lemma ConsultsWork(w: World, s: State, id: nat, how: How)
    requires Formed(w, s, id) && Has(s, id, 1) && s.calls[id].phase.Artifact?
    ensures WorkOf(Consults(w, s, id, how), id) < WorkOf(s, id)
  {
  }

  lemma UploadsWork(w: World, s: State, id: nat, b: string, how: How)
    requires Formed(w, s, id) && Has(s, id, 1) && s.calls[id].phase == Uploading(b)
    ensures WorkOf(Uploads(w, s, id, b, how), id) < WorkOf(s, id)
  {
    RoundsPositive(Count(s.calls[id]));
  }

  lemma CompiledWork(c: Call, c': Call, held: nat)
    requires c.phase.Compiling? && c'.rest == c.rest && held <= 1
    requires c'.phase.Archiving? || c'.phase.Finishing? || c'.phase.Lookup?
    ensures Work(c', held) < Work(c, held)
  {
    RoundsPositive(Count(c));
  }

  lemma CompilesWork(w: World, s: State, id: nat, how: How)
    requires Formed(w, s, id) && Has(s, id, 1) && s.calls[id].phase.Compiling?
    ensures WorkOf(Compiles(w, s, id, how), id) < WorkOf(s, id)
  {
    if how.Good? {
      CompiledWork(s.calls[id], Compiles(w, s, id, how).calls[id], |HeldOf(s, id)|);
    } else {
      DropWork(s, id);
    }
  }

  lemma ArchivesWork(w: World, s: State, id: nat, how: How)
    requires Formed(w, s, id) && Has(s, id, 1) && s.calls[id].phase.Archiving?
    ensures WorkOf(Archives(w, s, id, how), id) < WorkOf(s, id)
  {
    RoundsPositive(Count(s.calls[id]));
  }

  lemma LooksUpWork(w: World, s: State, id: nat, how: How)
    requires Formed(w, s, id) && Has(s, id, 1) && s.calls[id].phase.Lookup?
    ensures WorkOf(LooksUp(w, s, id, how), id) < WorkOf(s, id)
  {
    RoundsPositive(Count(s.calls[id]));
  }

  lemma WritesWork(w: World, s: State, id: nat, how: How)
    requires Formed(w, s, id) && Has(s, id, 1) && s.calls[id].phase.Writing?
    ensures WorkOf(Writes(s, id, how), id) < WorkOf(s, id)
  {
    RoundsPositive(Count(s.calls[id]));
  }

  lemma RunsFirstWork(w: World, s: State, id: nat, how: How)
    requires Formed(w, s, id) && Has(s, id, 1) && s.calls[id].phase.Running?
    ensures WorkOf(RunsFirst(w, s, id, how), id) < WorkOf(s, id)
  {
    RoundsPositive(Count(s.calls[id]));
  }

  lemma StoresWork(w: World, s: State, id: nat, v: Visible, how: How)
    requires Formed(w, s, id) && Has(s, id, 1) && s.calls[id].phase == Storing(v)
    ensures WorkOf(Stores(w, s, id, v, how), id) < WorkOf(s, id)
  {
    RoundsPositive(Count(s.calls[id]));
  }

  lemma DecidedWork(c: Call, c': Call, held: nat)
    requires c.phase.Deciding? && c'.rest == c.rest && held <= 1 && (c'.phase.Finishing? || c'.phase.Sizing?)
    ensures Work(c', held) < Work(c, held)
  {
    RoundsPositive(Count(c));
  }

  lemma DecidesWork(w: World, s: State, id: nat, v: Visible)
    requires Formed(w, s, id) && Has(s, id, 1) && s.calls[id].phase == Deciding(v)
    ensures WorkOf(Decides(s, id, v), id) < WorkOf(s, id)
  {
    DecidedWork(s.calls[id], Decides(s, id, v).calls[id], |HeldOf(s, id)|);
  }

  lemma SizesWork(w: World, s: State, id: nat)
    requires Formed(w, s, id) && Has(s, id, 1) && s.calls[id].phase.Sizing?
    ensures WorkOf(Sizes(s, id), id) < WorkOf(s, id)
  {
    var c := s.calls[id];
    RoundLess(Left(c), Count(c), Count(c));
  }

  lemma GrowsWork(w: World, s: State, id: nat, left: nat)
    requires Formed(w, s, id) && Has(s, id, 0) && s.calls[id].phase == Filling(left + 1)
    ensures WorkOf(Grows(s, id, left), id) < WorkOf(s, id)
  {
  }

  lemma BeginsWork(w: World, s: State, id: nat)
    requires Has(s, id, 0) && s.calls[id].phase == Filling(0) && |HeldOf(s, id)| <= Count(s.calls[id])
    ensures WorkOf(Begins(s, id), id) < WorkOf(s, id)
  {
    hide Trim, PoolKeys, Quiet, Touches, Early, Keeps, Tame, Loses;
    var c, c' := s.calls[id], Begins(s, id).calls[id];
    if c'.phase.Chunk? {
      ChunkWork(c, c', |HeldOf(s, id)|);
    }
  }

  lemma ChunkWork(c: Call, c': Call, held: nat)
    requires c.phase == Filling(0) && c'.phase.Chunk? && |c'.phase.slots| <= Count(c)
    requires c'.results == c.results && c'.rest == c.rest
    ensures Work(c', held) < Work(c, held)
  {
    assert SlotsWork(c'.phase.slots) <= 3 * Count(c);
  }

  lemma GetsWork(s: State, id: nat, left: nat, name: string, text: string)
    requires Has(s, id, 1) && s.calls[id].phase == Loading(left)
    ensures WorkOf(Gets(s, id, left, name, text), id) < WorkOf(s, id)
  {
  }

  lemma LoadsWork(w: World, s: State, id: nat, left: nat, how: How)
    requires Formed(w, s, id) && Has(s, id, 1) && s.calls[id].phase == Loading(left)
    ensures WorkOf(Loads(w, s, id, left, how), id) < WorkOf(s, id)
  {
    var p := ProgOf(s.calls[id]);
    DropWork(s, id);
    assert WorkOf(Kept(s, id, left, LeftFiles(s, id, how)), id) < WorkOf(s, id);
    if Compiled(p.lang) && ArtifactHit(s.redis, ArtifactKey(w, p)).Some? {
      GetsWork(s, id, left, Primary(p.lang), ArtifactHit(s.redis, ArtifactKey(w, p)).value);
    } else if !Compiled(p.lang) {
      GetsWork(s, id, left, SourceFile(p.lang), p.code);
    }
  }

  lemma ChunkWorkDrops(c: Call, slots: seq<Slot>, i: nat, x: Slot, held: nat)
    requires c.phase == Chunk(slots) && i < |slots| && SlotWork(x) < SlotWork(slots[i])
    ensures Work(c.(phase := Chunk(slots[i := x])), held) < Work(c, held)
  {
    SlotWorkDrops(slots, i, x);
  }

  lemma SlotsWorkDrops(w: World, s: State, id: nat, slots: seq<Slot>, slot: nat, how: How)
    requires Formed(w, s, id) && HasSlot(s, id, slots, slot) && !Finished(slots[slot])
    ensures WorkOf(Slots(w, s, id, slots, slot, how), id) < WorkOf(s, id)
  {
    ChunkWorkDrops(s.calls[id], slots, slot, SlotAfter(w, s, id, slots, slot, how), |HeldOf(s, id)|);
  }

  /** A chunk that has ended leaves less than a chunk under way. */
  lemma ChunkDone(c: Call, c': Call, slots: seq<Slot>, held: nat)
    requires c.phase == Chunk(slots) && c'.rest == c.rest && held <= Count(c) && Left(c') < Left(c)
    requires c'.phase.Draining? || c'.phase.Finishing?
    ensures Work(c', held) < Work(c, held)
  {
    RoundLess(Left(c'), Left(c), Count(c));
  }

  lemma JoinsWork(w: World, s: State, id: nat, slots: seq<Slot>)
    requires Formed(w, s, id) && Has(s, id, 1) && s.calls[id].phase == Chunk(slots) && AllFinished(slots)
    requires |HeldOf(s, id)| <= Count(s.calls[id])
    ensures WorkOf(Joins(s, id, slots), id) < WorkOf(s, id)
  {
    var c, c' := s.calls[id], Joins(s, id, slots).calls[id];
    if Broken in slots {
      DropWork(s, id);
    } else {
      assert Left(c') < Left(c);
      ChunkDone(c, c', slots, |HeldOf(s, id)|);
    }
  }

  lemma ReturnsWork(w: World, s: State, id: nat)
    requires Formed(w, s, id) && Has(s, id, 1) && (s.calls[id].phase.Draining? || s.calls[id].phase.Finishing?)
    ensures WorkOf(Returns(s, id), id) < WorkOf(s, id)
  {
  }

  lemma DrainsWork(w: World, s: State, id: nat)
    requires Formed(w, s, id) && Has(s, id, 0) && s.calls[id].phase.Draining?
    ensures WorkOf(Drains(s, id), id) < WorkOf(s, id)
  {
    if s.cu.held[id] != [] {
      ReturnsWork(w, s, id);
    }
  }

  lemma FinishesWork(w: World, s: State, id: nat, out: Outcome)
    requires Formed(w, s, id) && Has(s, id, 0) && s.calls[id].phase == Finishing(out)
    ensures WorkOf(Finishes(s, id, out), id) < WorkOf(s, id)
  {
    if s.cu.held[id] != [] {
      ReturnsWork(w, s, id);
    }
  }

  lemma HoldsFew(w: World, s: State, id: nat)
    requires Before(w, s, id)
    ensures Sized(s.calls[id].phase) ==> |HeldOf(s, id)| <= Count(s.calls[id])
  {
  }

  /** Every move of a call uses up some of its work. */
  lemma MovedWork(w: World, s: State, id: nat, how: How, slot: nat)
    requires Before(w, s, id) && Ready(s, id, slot)
    ensures WorkOf(Moved(w, s, id, how, slot), id) < WorkOf(s, id)
  {
    hide Trim, PoolKeys, Quiet, Touches, Early, Keeps, Tame, Loses;
    HoldsFew(w, s, id);
    match s.calls[id].phase
    case Looking => LooksWork(w, s, id, how);
    case Waiting => WaitsWork(w, s, id);
    case Admitted => StartsWork(w, s, id);
    case Artifact => ConsultsWork(w, s, id, how);
    case Uploading(b) => UploadsWork(w, s, id, b, how);
    case Compiling => CompilesWork(w, s, id, how);
    case Archiving => ArchivesWork(w, s, id, how);
    case Lookup => LooksUpWork(w, s, id, how);
    case Writing => WritesWork(w, s, id, how);
    case Running => RunsFirstWork(w, s, id, how);
    case Storing(v) => StoresWork(w, s, id, v, how);
    case Deciding(v) => DecidesWork(w, s, id, v);
    case Sizing => SizesWork(w, s, id);
    case Filling(left) => if left > 0 { GrowsWork(w, s, id, left - 1); } else { BeginsWork(w, s, id); }
    case Loading(left) => LoadsWork(w, s, id, left, how);
    case Chunk(slots) =>
      if AllFinished(slots) { JoinsWork(w, s, id, slots); } else { SlotsWorkDrops(w, s, id, slots, slot, how); }
    case Draining => DrainsWork(w, s, id);
    case Finishing(out) => FinishesWork(w, s, id, out);
    case Done(out) =>
  }

  // ---------------------------------------------------------------- the work of all calls

  function WorkUpTo(s: State, k: nat): nat
    requires k <= |s.calls|
  {
    if k == 0 then 0 else WorkUpTo(s, k - 1) + WorkOf(s, k - 1)
  }

  function TotalWork(s: State): nat {
    WorkUpTo(s, |s.calls|)
  }

  /** From s to s' the call id does some work, and no other call is touched. */
  ghost predicate WorksAlone(s: State, s': State, id: nat) {
    && id < |s.calls| == |s'.calls| && WorkOf(s', id) < WorkOf(s, id)
    && forall j :: 0 <= j < |s.calls| && j != id ==> WorkOf(s', j) == WorkOf(s, j)
  }

  lemma {:induction false} SumDrops(s: State, s': State, id: nat, k: nat)
    requires WorksAlone(s, s', id) && k <= |s.calls|
    ensures WorkUpTo(s', k) <= WorkUpTo(s, k)
    ensures id < k ==> WorkUpTo(s', k) < WorkUpTo(s, k)
  {
    if k > 0 {
      SumDrops(s, s', id, k - 1);
    }
  }

  lemma TouchesWorksAlone(w: World, s: State, s': State, id: nat)
    requires Touches(s, s', id) && CustodyStep(w, s.cu, s'.cu, id) && WorkOf(s', id) < WorkOf(s, id)
    ensures TotalWork(s') < TotalWork(s)
  {
    forall j | 0 <= j < |s.calls| && j != id ensures WorkOf(s', j) == WorkOf(s, j) {
      assert SameFor(s.cu, s'.cu, j);
    }
    SumDrops(s, s', id, |s.calls|);
  }

  lemma CancelWorksAlone(s: State, id: nat)
    requires Enabled(s, Cancel(id))
    ensures WorkOf(if id in s.cu.held then Drop(s, id) else To(s, id, Done(Err)), id) < WorkOf(s, id)
  {
    WorkPositive(s.calls[id], |HeldOf(s, id)|);
  }

  lemma DropWorksAlone(w: World, s: State, id: nat)
    requires Inv(w, s) && Enabled(s, Cancel(id)) && id in s.cu.held
    ensures TotalWork(Drop(s, id)) < TotalWork(s)
  {
    CancelWorksAlone(s, id);
    AbandonStep(w, s, id);
    TouchesWorksAlone(w, s, Drop(s, id), id);
  }

  lemma QuitWorksAlone(w: World, s: State, id: nat)
    requires Inv(w, s) && Enabled(s, Cancel(id)) && id !in s.cu.held
    ensures TotalWork(To(s, id, Done(Err))) < TotalWork(s)
  {
    CancelWorksAlone(s, id);
    TouchesWorksAlone(w, s, To(s, id, Done(Err)), id);
  }

  lemma CancelWorks(w: World, s: State, id: nat)
    requires Inv(w, s) && Enabled(s, Cancel(id))
    ensures TotalWork(Step(w, s, Cancel(id))) < TotalWork(s)
  {
    if id in s.cu.held {
      DropWorksAlone(w, s, id);
    } else {
      QuitWorksAlone(w, s, id);
    }
  }

  lemma {:induction false} EvictWorks(w: World, s: State, key: string, k: nat)
    requires k <= |s.calls|
    ensures WorkUpTo(Step(w, s, Evict(key)), k) == WorkUpTo(s, k)
  {
    if k > 0 {
      EvictWorks(w, s, key, k - 1);
    }
  }

  /** A move or a cancellation leaves less work in all; an eviction leaves as much. */
  lemma StepWorks(w: World, s: State, e: Event)
    requires Inv(w, s) && Enabled(s, e) && !e.Spawn?
    ensures TotalWork(Step(w, s, e)) + (if e.Evict? then 0 else 1) <= TotalWork(s)
  {
    match e
    case Act(id, how, slot) =>
      assert CallOk(w, s, id);
      MovedCustody(w, s, id, how, slot);
      MovedWork(w, s, id, how, slot);
      TouchesWorksAlone(w, s, Moved(w, s, id, how, slot), id);
    case Cancel(id) =>
      CancelWorks(w, s, id);
    case Evict(key) =>
      EvictWorks(w, s, key, |s.calls|);
  }

  /** The moves and cancellations among some events. */
  function CountMoves(events: seq<Event>): nat {
    if events == [] then 0 else CountMoves(events[..|events| - 1]) + (if events[|events| - 1].Evict? then 0 else 1)
  }

  lemma RunWorks(w: World, trace: seq<State>, events: seq<Event>, k: nat)
    requires WorldOk(w) && Run(w, trace, events) && k < |events| && !events[k].Spawn?
    ensures TotalWork(trace[k + 1]) + (if events[k].Evict? then 0 else 1) <= TotalWork(trace[k])
  {
    RunKeeps(w, trace, events, k);
    StepWorks(w, trace[k], events[k]);
  }

  lemma {:induction false} WorkRunsOut(work: seq<nat>, events: seq<Event>, i: nat, j: nat)
    requires i <= j <= |events| && |work| == |events| + 1
    requires forall k :: i <= k < j ==> work[k + 1] + (if events[k].Evict? then 0 else 1) <= work[k]
    ensures CountMoves(events[i..j]) + work[j] <= work[i]
  {
    if i < j {
      WorkRunsOut(work, events, i, j - 1);
      assert events[i..j][..j - i - 1] == events[i..j - 1];
      assert work[j - 1 + 1] + (if events[j - 1].Evict? then 0 else 1) <= work[j - 1];
    }
  }

  /**
   * From a state reached at i, with no more calls coming, at most TotalWork moves remain, whatever is evicted
   * meanwhile.
   */
  lemma Termination(w: World, trace: seq<State>, events: seq<Event>, i: nat, j: nat)
    requires WorldOk(w) && Run(w, trace, events) && i <= j < |trace|
    requires forall k :: i <= k < j ==> !events[k].Spawn?
    ensures CountMoves(events[i..j]) + TotalWork(trace[j]) <= TotalWork(trace[i])
  {
    var work: seq<nat> := seq(|trace|, k requires 0 <= k < |trace| => TotalWork(trace[k]));
    forall k | i <= k < j ensures work[k + 1] + (if events[k].Evict? then 0 else 1) <= work[k] {
      RunWorks(w, trace, events, k);
    }
    WorkRunsOut(work, events, i, j);
  }

  /** When no call can move, all are done, all permits are free and no container is held. */
  lemma EndsFree(w: World, trace: seq<State>, events: seq<Event>, i: nat)
    requires WorldOk(w) && Run(w, trace, events) && i < |trace| && w.total > 0
    requires !CanMove(trace[i])
    ensures AllDone(trace[i]) && trace[i].cu.permits == w.total && Held(trace[i].cu) == {}
  {
    RunKeeps(w, trace, events, i);
    NoDeadlock(w, trace[i]);
    AllDoneFree(w, trace[i]);
  }
}
