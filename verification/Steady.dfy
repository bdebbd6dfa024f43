/**
 * When no batch leaves a container unloaded: a condition on the cache alone, for whole runs.
 */
module Steady {
  import opened Options
  import opened Text
  import opened Platform
  import opened Keys
  import opened Store
  import opened Custody
  import opened Engine
  import opened Meaning
  import opened Invariants
  import opened Reachability
  import opened Theorems

  predicate IsBatchOf(c: Call, p: Prog) {
    c.kind.Batch? && ProgOf(c) == p
  }

  /** The artifact of the program is in the cache. */
  predicate Archived(w: World, s: State, p: Prog) {
    ArtifactHit(s.redis, ArtifactKey(w, p)).Some?
  }

  /**
   * The move is not one of those on which a batch of p would keep a container unloaded: the cache does
   * not fail while the artifact is stored or fetched for a further container, the write of a source is
   * not late, and an interpreted batch does not find its first result.
   */
  predicate SteadyMove(w: World, s: State, id: nat, how: How, p: Prog)
    requires id < |s.calls|
  {
    var c := s.calls[id];
    IsBatchOf(c, p) ==>
      && (c.phase.Archiving? || c.phase.Loading? ==> !how.Soft?)
      && (c.phase.Lookup? && !Compiled(p.lang) && how.Good? ==> ResultHit(s.redis, Key(w, c, 0)).None?)
  }

  /** And the artifact of p does not expire. */
  predicate SteadyEvent(w: World, s: State, e: Event, p: Prog)
    requires Enabled(s, e)
  {
    match e
    case Act(id, how, slot) => SteadyMove(w, s, id, how, p)
    case Evict(key) => key != ArtifactKey(w, p)
    case _ => true
  }

  /** A batch of p has kept no container unloaded, and from its build on the artifact is in the cache. */
  predicate Provided(w: World, s: State, c: Call, p: Prog) {
    IsBatchOf(c, p) && Certain(p) && Runs(w, p) ==>
      && !c.skipped
      && (Compiled(p.lang) && c.runnable && (AfterLoad(c.phase) || c.phase.Uploading?) ==> Archived(w, s, p))
  }

  // ---------------------------------------------------------------- one move

  /** What a move of this call leaves true, whatever it does to the others. */
  predicate Provides(w: World, s: State, s': State, id: nat, p: Prog) {
    id < |s'.calls| && Provided(w, s', s'.calls[id], p) && (Archived(w, s, p) ==> Archived(w, s', p))
  }

  lemma EntryProvides(w: World, s: State, id: nat, how: How, slot: nat, p: Prog)
    requires Ready(s, id, slot) && Provided(w, s, s.calls[id], p)
    requires s.calls[id].phase.Looking? || s.calls[id].phase.Waiting? || s.calls[id].phase.Admitted?
    ensures Provides(w, s, Moved(w, s, id, how, slot), id, p)
  {
    hide ArtifactKey, EarlyKey, Trim, PoolKeys, Quiet, Touches, Early, Tame, Loses, Accepted, OneDocument, FreshBuild;
  }

  lemma ConsultsProvides(w: World, s: State, id: nat, how: How, p: Prog)
    requires Has(s, id, 1) && Provided(w, s, s.calls[id], p) && s.calls[id].phase.Artifact?
    ensures Provides(w, s, Consults(w, s, id, how), id, p)
  {
    hide ArtifactKey, Trim, PoolKeys, Quiet, Touches, Early, Tame, Loses;
  }

  lemma UploadsProvides(w: World, s: State, id: nat, b: string, how: How, p: Prog)
    requires Has(s, id, 1) && Provided(w, s, s.calls[id], p)
    requires s.calls[id].phase == Uploading(b) && s.calls[id].runnable
    ensures Provides(w, s, Uploads(w, s, id, b, how), id, p)
  {
    hide ArtifactKey, Trim, PoolKeys, Quiet, Touches, Early, Tame, Loses, Unpacked;
  }

  lemma CompilesProvides(w: World, s: State, id: nat, how: How, p: Prog)
    requires Has(s, id, 1) && Provided(w, s, s.calls[id], p) && s.calls[id].phase.Compiling?
    ensures Provides(w, s, Compiles(w, s, id, how), id, p)
  {
    hide ArtifactKey, Trim, PoolKeys, Quiet, Touches, Early, Tame, Loses, Scripted;
  }

  lemma ArchivesProvides(w: World, s: State, id: nat, how: How, p: Prog)
    requires Has(s, id, 1) && Provided(w, s, s.calls[id], p) && s.calls[id].phase.Archiving?
    requires SteadyMove(w, s, id, how, p)
    ensures Provides(w, s, Archives(w, s, id, how), id, p)
  {
    hide ArtifactKey, Trim, PoolKeys, Quiet, Touches, Early, Tame, Loses;
  }

  lemma LooksUpProvides(w: World, s: State, id: nat, how: How, p: Prog)
    requires Has(s, id, 1) && Provided(w, s, s.calls[id], p) && s.calls[id].phase.Lookup?
    requires BuildKnown(w, s.calls[id]) && SteadyMove(w, s, id, how, p)
    requires s.calls[id].ours == [Compiled(ProgOf(s.calls[id]).lang) && s.calls[id].runnable]
    ensures Provides(w, s, LooksUp(w, s, id, how), id, p)
  {
    hide ArtifactKey, Key, Trim, PoolKeys, Quiet, Touches, Early, Tame, Loses;
  }

  lemma FirstProvides(w: World, s: State, id: nat, how: How, p: Prog)
    requires Has(s, id, 1) && Provided(w, s, s.calls[id], p)
    ensures s.calls[id].phase.Writing? ==> Provides(w, s, Writes(s, id, how), id, p)
    ensures s.calls[id].phase.Running? ==> Provides(w, s, RunsFirst(w, s, id, how), id, p)
  {
    hide ArtifactKey, Key, Trim, PoolKeys, Quiet, Touches, Early, Tame, Loses, RunOf;
  }

  /** Storing a result leaves artifacts alone. */
  lemma StoredArchived(w: World, s: State, q: Prog, limit: nat, stdin: Option<string>, v: Visible, how: How, p: Prog)
    ensures Archived(w, Stored(s, ResultKey(w, q, limit, stdin), v, how), p) == Archived(w, s, p)
  {
    hide ResultKey, ArtifactKey;
    KeysApart(w, q, limit, stdin, p);
  }

  lemma StoresProvides(w: World, s: State, id: nat, v: Visible, how: How, p: Prog)
    requires Has(s, id, 1) && Provided(w, s, s.calls[id], p) && s.calls[id].phase == Storing(v)
    ensures Provides(w, s, Stores(w, s, id, v, how), id, p)
  {
    hide ArtifactKey, ResultKey, Trim, PoolKeys, Quiet, Touches, Early, Tame, Loses;
    var c := s.calls[id];
    StoredArchived(w, s, ProgOf(c), LimitOf(w, c), Stdin(c, 0), v, how, p);
  }

  lemma DecidesProvides(w: World, s: State, id: nat, p: Prog)
    requires Has(s, id, 1) && Provided(w, s, s.calls[id], p)
    ensures s.calls[id].phase.Deciding? ==> Provides(w, s, Decides(s, id, s.calls[id].phase.v), id, p)
    ensures s.calls[id].phase.Sizing? ==> Provides(w, s, Sizes(s, id), id, p)
  {
    hide ArtifactKey, Key, Trim, PoolKeys, Quiet, Touches, Early, Tame, Loses;
  }

  lemma FillsProvides(w: World, s: State, id: nat, left: nat, p: Prog)
    requires Has(s, id, 0) && Provided(w, s, s.calls[id], p) && s.calls[id].phase == Filling(left)
    ensures Provides(w, s, Fills(s, id, left), id, p)
  {
    hide ArtifactKey, Key, Trim, PoolKeys, Quiet, Touches, Early, Tame, Loses;
  }

  lemma LoadsProvides(w: World, s: State, id: nat, left: nat, how: How, p: Prog)
    requires Has(s, id, 1) && Provided(w, s, s.calls[id], p) && s.calls[id].phase == Loading(left)
    requires BuildKnown(w, s.calls[id]) && SteadyMove(w, s, id, how, p)
    ensures Provides(w, s, Loads(w, s, id, left, how), id, p)
  {
    hide ArtifactKey, Key, Trim, PoolKeys, Quiet, Touches, Early, Tame, Loses;
  }

  lemma SlotsProvides(w: World, s: State, id: nat, slots: seq<Slot>, i: nat, how: How, p: Prog)
    requires HasSlot(s, id, slots, i) && Provided(w, s, s.calls[id], p)
    ensures Provides(w, s, Slots(w, s, id, slots, i, how), id, p)
  {
    hide ArtifactKey, ResultKey, SlotAfter, RunsStale, Trim, PoolKeys, Quiet, Touches, Early, Tame, Loses;
    var c := s.calls[id];
    if slots[i].Ran? {
      var k := |c.results| + i;
      StoredArchived(w, s, ProgOf(c), LimitOf(w, c), Stdin(c, k), slots[i].v, how, p);
    }
  }

  lemma JoinsProvides(w: World, s: State, id: nat, slots: seq<Slot>, p: Prog)
    requires Has(s, id, 1) && AllFinished(slots) && s.calls[id].phase == Chunk(slots) && Provided(w, s, s.calls[id], p)
    ensures Provides(w, s, Joins(s, id, slots), id, p)
  {
    hide ArtifactKey, Key, Trim, PoolKeys, Quiet, Touches, Early, Tame, Loses;
  }

  lemma ReturnsProvides(w: World, s: State, id: nat, p: Prog)
    requires Has(s, id, 0) && Provided(w, s, s.calls[id], p)
    ensures s.calls[id].phase.Draining? ==> Provides(w, s, Drains(s, id), id, p)
    ensures s.calls[id].phase.Finishing? ==> Provides(w, s, Finishes(s, id, s.calls[id].phase.out), id, p)
  {
    hide ArtifactKey, Key, Trim, PoolKeys, Quiet, Touches, Early, Tame, Loses;
  }

  // ---------------------------------------------------------------- every move

  lemma LoadMoves(w: World, s: State, id: nat, how: How, slot: nat, p: Prog)
    requires Ready(s, id, slot) && Provided(w, s, s.calls[id], p) && SteadyMove(w, s, id, how, p)
    requires LoadingKnown(w, s.calls[id]) && !AfterLoad(s.calls[id].phase) && !s.calls[id].phase.Finishing?
    ensures Provides(w, s, Moved(w, s, id, how, slot), id, p)
  {
    hide ArtifactKey, Trim, PoolKeys, Provides, Provided, SteadyMove, BuildKnown, Quiet, Touches, Early, Tame, Loses;
    match s.calls[id].phase
    case Artifact => ConsultsProvides(w, s, id, how, p);
    case Uploading(b) => UploadsProvides(w, s, id, b, how, p);
    case Compiling => CompilesProvides(w, s, id, how, p);
    case Archiving => ArchivesProvides(w, s, id, how, p);
    case _ => EntryProvides(w, s, id, how, slot, p);
  }

  lemma RunMoves(w: World, s: State, id: nat, how: How, slot: nat, p: Prog)
    requires Ready(s, id, slot) && Provided(w, s, s.calls[id], p) && SteadyMove(w, s, id, how, p)
    requires LoadingKnown(w, s.calls[id]) && AfterLoad(s.calls[id].phase) && !Sized(s.calls[id].phase)
    ensures Provides(w, s, Moved(w, s, id, how, slot), id, p)
  {
    hide ArtifactKey, Trim, PoolKeys, Provides, Provided, SteadyMove, BuildKnown, Quiet, Touches, Early, Tame, Loses;
    FirstProvides(w, s, id, how, p);
    DecidesProvides(w, s, id, p);
    match s.calls[id].phase
    case Lookup => LooksUpProvides(w, s, id, how, p);
    case Storing(v) => StoresProvides(w, s, id, v, how, p);
    case _ =>
  }

  lemma LoopMoves(w: World, s: State, id: nat, how: How, slot: nat, p: Prog)
    requires Ready(s, id, slot) && Provided(w, s, s.calls[id], p) && SteadyMove(w, s, id, how, p)
    requires LoadingKnown(w, s.calls[id]) && (Sized(s.calls[id].phase) || s.calls[id].phase.Finishing?)
    ensures Provides(w, s, Moved(w, s, id, how, slot), id, p)
  {
    hide ArtifactKey, Trim, PoolKeys, Provides, Provided, SteadyMove, BuildKnown, Quiet, Touches, Early, Tame, Loses;
    match s.calls[id].phase
    case Filling(left) => FillsProvides(w, s, id, left, p);
    case Loading(left) => LoadsProvides(w, s, id, left, how, p);
    case Chunk(slots) =>
      if AllFinished(slots) {
        JoinsProvides(w, s, id, slots, p);
      } else {
        SlotsProvides(w, s, id, slots, slot, how, p);
      }
    case _ => ReturnsProvides(w, s, id, p);
  }

  lemma MoveProvides(w: World, s: State, id: nat, how: How, slot: nat, p: Prog)
    requires Inv(w, s) && Ready(s, id, slot) && Provided(w, s, s.calls[id], p) && SteadyMove(w, s, id, how, p)
    ensures Provides(w, s, Moved(w, s, id, how, slot), id, p)
  {
    hide ArtifactKey, Trim, PoolKeys, Provides, Provided, SteadyMove, CustodyOk, StoreOk, StaleOk, Moved;
    assert CallOk(w, s, id);
    var ph := s.calls[id].phase;
    if Sized(ph) || ph.Finishing? {
      LoopMoves(w, s, id, how, slot, p);
    } else if AfterLoad(ph) {
      RunMoves(w, s, id, how, slot, p);
    } else {
      LoadMoves(w, s, id, how, slot, p);
    }
  }

  // ---------------------------------------------------------------- every event

  ghost predicate AllProvided(w: World, s: State, p: Prog) {
    forall id :: 0 <= id < |s.calls| ==> Provided(w, s, s.calls[id], p)
  }

  lemma OthersProvided(w: World, s: State, s': State, id: nat, p: Prog)
    requires AllProvided(w, s, p) && Touches(s, s', id) && Provides(w, s, s', id, p)
    ensures AllProvided(w, s', p)
  {
    hide ArtifactKey, Trim, PoolKeys, Loses, SameCall;
    forall j | 0 <= j < |s'.calls| ensures Provided(w, s', s'.calls[j], p) {
      if j != id {
        assert Provided(w, s, s.calls[j], p);
      }
    }
  }

  lemma CancelProvides(w: World, s: State, id: nat, p: Prog)
    requires Enabled(s, Cancel(id)) && Provided(w, s, s.calls[id], p)
    ensures Provides(w, s, Step(w, s, Cancel(id)), id, p)
  {
    hide ArtifactKey, Trim, PoolKeys, Quiet, Touches, Early, Tame, Loses;
  }

  lemma StepProvides(w: World, s: State, e: Event, p: Prog)
    requires Inv(w, s) && Enabled(s, e) && AllProvided(w, s, p) && SteadyEvent(w, s, e, p)
    ensures AllProvided(w, Step(w, s, e), p)
  {
    hide ArtifactKey, Trim, PoolKeys, Inv, Moved, Has, Drop, To, SteadyMove, Provides, Loses, Touches;
    match e
    case Spawn(kind, first, rest) =>
      forall j | 0 <= j < |s.calls| + 1 ensures Provided(w, Step(w, s, e), Step(w, s, e).calls[j], p) {
        if j < |s.calls| {
          assert Provided(w, s, s.calls[j], p);
        }
      }
    case Act(id, how, slot) =>
      assert Provided(w, s, s.calls[id], p);
      MoveProvides(w, s, id, how, slot, p);
      OthersProvided(w, s, Moved(w, s, id, how, slot), id, p);
    case Cancel(id) =>
      CancelProvides(w, s, id, p);
      CancelTouches(w, s, id);
      OthersProvided(w, s, Step(w, s, e), id, p);
    case Evict(key) =>
      forall j | 0 <= j < |s.calls| ensures Provided(w, Step(w, s, e), s.calls[j], p) {
        assert Provided(w, s, s.calls[j], p);
      }
  }

  lemma CancelTouches(w: World, s: State, id: nat)
    requires Inv(w, s) && Enabled(s, Cancel(id))
    ensures Touches(s, Step(w, s, Cancel(id)), id)
  {
    hide Trim, PoolKeys, CustodyOk, StoreOk, StaleOk, CallOk;
    if id in s.cu.held {
      assert Quiet(s, Drop(s, id), id);
    }
  }

  // ---------------------------------------------------------------- what becomes stale can run

  ghost predicate StaleRun(w: World, s: State) {
    forall p :: p in s.stale && Certain(p) ==> Runs(w, p)
  }

  lemma SlotsStale(w: World, s: State, id: nat, slots: seq<Slot>, i: nat, how: How)
    requires HasSlot(s, id, slots, i) && BuildKnown(w, s.calls[id]) && StaleRun(w, s)
    ensures StaleRun(w, Slots(w, s, id, slots, i, how))
  {
    hide Trim, PoolKeys, ResultKey, SlotAfter, Quiet, Touches, Early, Tame, Loses;
  }

  lemma ChunkKnown(w: World, s: State, id: nat)
    requires Inv(w, s) && id < |s.calls| && s.calls[id].phase.Chunk?
    ensures BuildKnown(w, s.calls[id])
  {
    assert CallOk(w, s, id);
  }

  lemma MovedKeepsStale(w: World, s: State, id: nat, how: How, slot: nat)
    requires Ready(s, id, slot) && !s.calls[id].phase.Chunk?
    ensures Moved(w, s, id, how, slot).stale == s.stale
  {
    hide Trim, PoolKeys, ResultKey, ArtifactKey, Quiet, Touches, Early, Tame, Loses;
  }

  lemma StepStaleRun(w: World, s: State, e: Event)
    requires Inv(w, s) && Enabled(s, e) && StaleRun(w, s)
    ensures StaleRun(w, Step(w, s, e))
  {
    hide Trim, PoolKeys, Inv, Looks, Slots, Runs, Quiet, Touches, Early, Tame, Loses;
    if e.Act? {
      var ph := s.calls[e.id].phase;
      if ph.Chunk? {
        ChunkKnown(w, s, e.id);
        if !AllFinished(ph.slots) {
          SlotsStale(w, s, e.id, ph.slots, e.slot, e.how);
        }
      } else {
        MovedKeepsStale(w, s, e.id, e.how, e.slot);
      }
    }
  }

  // ---------------------------------------------------------------- every run

  /** The first i events of the run are steady for p. */
  ghost predicate SteadyRun(w: World, trace: seq<State>, events: seq<Event>, i: nat, p: Prog)
    requires Run(w, trace, events) && i < |trace|
  {
    forall j: nat :: j < i ==> SteadyEvent(w, trace[j], events[j], p)
  }

  lemma {:induction false} RunProvided(w: World, trace: seq<State>, events: seq<Event>, i: nat, p: Prog)
    requires WorldOk(w) && Run(w, trace, events) && i < |trace| && SteadyRun(w, trace, events, i, p)
    ensures AllProvided(w, trace[i], p)
  {
    hide Step, Enabled, SteadyEvent, Provided, WorldOk;
    if i > 0 {
      RunProvided(w, trace, events, i - 1, p);
      RunKeeps(w, trace, events, i - 1);
      assert SteadyEvent(w, trace[i - 1], events[i - 1], p);
      assert trace[i - 1 + 1] == Step(w, trace[i - 1], events[i - 1]);
      StepProvides(w, trace[i - 1], events[i - 1], p);
    }
  }

  lemma {:induction false} RunStaleRun(w: World, trace: seq<State>, events: seq<Event>, i: nat)
    requires WorldOk(w) && Run(w, trace, events) && i < |trace|
    ensures StaleRun(w, trace[i])
  {
    hide Step, Enabled, WorldOk, Runs;
    if i > 0 {
      RunStaleRun(w, trace, events, i - 1);
      RunKeeps(w, trace, events, i - 1);
      assert trace[i - 1 + 1] == Step(w, trace[i - 1], events[i - 1]);
      StepStaleRun(w, trace[i - 1], events[i - 1]);
    }
  }

  lemma NeverStale(w: World, trace: seq<State>, events: seq<Event>, i: nat, p: Prog)
    requires WorldOk(w) && Run(w, trace, events) && i < |trace| && SteadyRun(w, trace, events, i, p)
    requires Certain(p)
    ensures p !in trace[i].stale
  {
    hide WorldOk, Run, SteadyRun, Trim, PoolKeys;
    RunStaleRun(w, trace, events, i);
    if Runs(w, p) {
      RunProvided(w, trace, events, i, p);
      forall id | 0 <= id < |trace[i].calls| ensures !Skipper(trace[i].calls[id], p) {
        assert Provided(w, trace[i], trace[i].calls[id], p);
      }
      NotStale(w, trace, events, i, p);
    }
  }

  /**
   * Transparency by the cache alone: as long as p's artifact does not expire, the cache does not fail
   * while a batch of p archives or fetches it, no write of p's source to a further container is late, and no
   * interpreted batch of p finds its first result cached, every Ok result for p is the one wanted.
   */
  lemma SteadyTransparency(w: World, trace: seq<State>, events: seq<Event>, i: nat, id: nat, rs: seq<Visible>)
    requires WorldOk(w) && Run(w, trace, events) && i < |trace| && id < |trace[i].calls|
    requires var c := trace[i].calls[id]; c.phase == Done(Ok(rs)) && Whole(w, ProgOf(c)) && Patient(w, c)
    requires SteadyRun(w, trace, events, i, ProgOf(trace[i].calls[id]))
    ensures rs == Expected(w, trace[i].calls[id]) && CallAnswered(w, trace[i].calls[id], rs)
  {
    NeverStale(w, trace, events, i, ProgOf(trace[i].calls[id]));
    CacheTransparency(w, trace, events, i, id, rs);
  }
}
