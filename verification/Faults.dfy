/**
 * When a batch faults: `i % containers.len()` with no container.
 */
module Faults {
  import opened Options
  import opened Text
  import opened Platform
  import opened Keys
  import opened Store
  import opened Custody
  import opened Engine
  import opened Invariants
  import opened Moves
  import opened Reachability
  import opened Theorems

  /** How far a batch can be; with max_parallel 0 it gets no further than its second result. */
  predicate Paced(c: Call, h: seq<nat>) {
    var r, none := |c.results|, c.maxPar == 0;
    match c.phase
    case Filling(left) => (r == 1 ==> c.width == 0) &&
      (none ==> left == 0 && |h| <= 1 && (r == 1 || (r == 2 && h == [])))
    case Loading(left) => !none && (r == 1 ==> c.width == 0)
    case Chunk(slots) => none ==> r == 1 && |slots| == 1
    case Draining => none ==> r == 2
    case Finishing(out) => r > 0 && none && out.Ok? ==> Count(c) <= 2
    case Done(out) => r > 0 && none && out.Ok? ==> Count(c) <= 2
    case Sizing => c.width == 0 && c.maxPar == 0
    case _ => r == 0 && c.width == 0 && c.maxPar == 0
  }

  predicate PacedAt(s: State, id: nat)
    requires id < |s.calls|
  {
    Paced(s.calls[id], HeldOf(s, id))
  }

  /** Up to the first result nothing of the chunk loop is set. */
  lemma EarlyPaced(w: World, s: State, id: nat, how: How, slot: nat)
    requires Ready(s, id, slot) && PacedAt(s, id)
    requires !Sized(s.calls[id].phase) && !s.calls[id].phase.Finishing? && !s.calls[id].phase.Sizing? &&
      !s.calls[id].phase.Deciding?
    ensures PacedAt(Moved(w, s, id, how, slot), id)
  {
    assert Early(s, Moved(w, s, id, how, slot), id);
  }

  lemma DecidesPaced(s: State, id: nat, v: Visible)
    requires Has(s, id, 1) && PacedAt(s, id) && s.calls[id].phase == Deciding(v)
    ensures PacedAt(Decides(s, id, v), id)
  {
  }

  lemma SizesPaced(w: World, s: State, id: nat)
    requires Has(s, id, 1) && PacedAt(s, id) && s.calls[id].phase.Sizing? && Formed(w, s, id)
    ensures PacedAt(Sizes(s, id), id)
  {
  }

  lemma GrowsPaced(w: World, s: State, id: nat, left: nat)
    requires Has(s, id, 0) && PacedAt(s, id) && s.calls[id].phase == Filling(left + 1) && Formed(w, s, id)
    ensures PacedAt(Grows(s, id, left), id)
  {
  }

  /** What the pace of a call is about: nothing else of its record matters. */
  lemma StartedPaced(c: Call, h: seq<nat>, width: nat, slots: seq<Slot>)
    requires Paced(c, h) && c.phase == Filling(0) && h != [] && Left(c) > 0
    requires width == (if c.width == 0 then |h| else c.width) && |slots| == Min(width, Left(c))
    ensures Paced(c.(width := width, phase := Chunk(slots)), h)
  {
  }

  lemma BeginsPaced(w: World, s: State, id: nat)
    requires Has(s, id, 0) && PacedAt(s, id) && s.calls[id].phase == Filling(0)
    ensures PacedAt(Begins(s, id), id)
  {
    var c, h := s.calls[id], s.cu.held[id];
    if Left(c) > 0 && h != [] {
      var width := if c.width == 0 then |h| else c.width;
      StartedPaced(c, h, width, seq(Min(width, Left(c)), _ => Idle));
    }
  }

  lemma KeptPaced(s: State, id: nat, left: nat, files: Files)
    requires Has(s, id, 1) && PacedAt(s, id) && s.calls[id].phase == Loading(left)
    ensures PacedAt(Kept(s, id, left, files), id)
  {
  }

  lemma GetsPaced(s: State, id: nat, left: nat, name: string, text: string)
    requires Has(s, id, 1) && PacedAt(s, id) && s.calls[id].phase == Loading(left)
    ensures PacedAt(Gets(s, id, left, name, text), id)
  {
  }

  lemma DropPaced(s: State, id: nat)
    requires id < |s.calls| && id in s.cu.held
    ensures PacedAt(Drop(s, id), id)
  {
  }

  lemma LoadsPaced(w: World, s: State, id: nat, left: nat, how: How)
    requires Has(s, id, 1) && PacedAt(s, id) && s.calls[id].phase == Loading(left)
    ensures PacedAt(Loads(w, s, id, left, how), id)
  {
    var p := ProgOf(s.calls[id]);
    var hit := ArtifactHit(s.redis, ArtifactKey(w, p));
    DropPaced(s, id);
    KeptPaced(s, id, left, LeftFiles(s, id, how));
    if Compiled(p.lang) {
      if hit.Some? {
        GetsPaced(s, id, left, Primary(p.lang), hit.value);
      }
    } else {
      GetsPaced(s, id, left, SourceFile(p.lang), p.code);
    }
  }

  lemma JoinedPaced(c: Call, h: seq<nat>, slots: seq<Slot>, results: seq<Visible>)
    requires Paced(c, h) && c.phase == Chunk(slots) && |results| == |c.results| + |slots|
    ensures Paced(c.(results := results,
                     phase := if |results| < Count(c) then Draining else Finishing(Ok(results))), h)
  {
  }

  lemma JoinsPaced(w: World, s: State, id: nat, slots: seq<Slot>)
    requires Has(s, id, 1) && PacedAt(s, id) && s.calls[id].phase == Chunk(slots) && AllFinished(slots)
    ensures PacedAt(Joins(s, id, slots), id)
  {
    if Broken in slots {
      DropPaced(s, id);
    } else {
      JoinedPaced(s.calls[id], s.cu.held[id], slots, Joins(s, id, slots).calls[id].results);
    }
  }

  lemma SlotsPaced(w: World, s: State, id: nat, slots: seq<Slot>, how: How, slot: nat)
    requires HasSlot(s, id, slots, slot) && PacedAt(s, id)
    ensures PacedAt(Slots(w, s, id, slots, slot, how), id)
  {
  }

  lemma ChunkPaced(w: World, s: State, id: nat, slots: seq<Slot>, how: How, slot: nat)
    requires Ready(s, id, slot) && PacedAt(s, id) && s.calls[id].phase == Chunk(slots) && Formed(w, s, id)
    ensures PacedAt(if AllFinished(slots) then Joins(s, id, slots) else Slots(w, s, id, slots, slot, how), id)
  {
    if AllFinished(slots) {
      JoinsPaced(w, s, id, slots);
    } else {
      SlotsPaced(w, s, id, slots, how, slot);
    }
  }

  lemma ReturnsPaced(s: State, id: nat)
    requires Has(s, id, 1) && PacedAt(s, id) && (s.calls[id].phase.Draining? || s.calls[id].phase.Finishing?)
    ensures PacedAt(Returns(s, id), id)
  {
  }

  lemma DrainsPaced(w: World, s: State, id: nat)
    requires Has(s, id, 0) && PacedAt(s, id) && s.calls[id].phase.Draining? && Formed(w, s, id)
    ensures PacedAt(Drains(s, id), id)
  {
    if s.cu.held[id] != [] {
      ReturnsPaced(s, id);
    }
  }

  lemma FinishesPaced(s: State, id: nat, out: Outcome)
    requires Has(s, id, 0) && PacedAt(s, id) && s.calls[id].phase == Finishing(out)
    ensures PacedAt(Finishes(s, id, out), id)
  {
    if s.cu.held[id] != [] {
      ReturnsPaced(s, id);
    }
  }

  /** The moves of the chunk loop. */
  lemma LoopPaced(w: World, s: State, id: nat, how: How, slot: nat)
    requires Formed(w, s, id) && Ready(s, id, slot) && PacedAt(s, id) && Sized(s.calls[id].phase)
    ensures PacedAt(Moved(w, s, id, how, slot), id)
  {
    var ph := s.calls[id].phase;
    if ph.Filling? {
      if ph.left > 0 { GrowsPaced(w, s, id, ph.left - 1); } else { BeginsPaced(w, s, id); }
    } else if ph.Loading? {
      LoadsPaced(w, s, id, ph.left, how);
    } else if ph.Chunk? {
      ChunkPaced(w, s, id, ph.slots, how, slot);
    } else {
      DrainsPaced(w, s, id);
    }
  }

  lemma MovedPaced(w: World, s: State, id: nat, how: How, slot: nat)
    requires Formed(w, s, id) && Ready(s, id, slot) && PacedAt(s, id)
    ensures PacedAt(Moved(w, s, id, how, slot), id)
  {
    var ph := s.calls[id].phase;
    if ph.Deciding? {
      DecidesPaced(s, id, ph.v);
    } else if ph.Sizing? {
      SizesPaced(w, s, id);
    } else if ph.Finishing? {
      FinishesPaced(s, id, ph.out);
    } else if Sized(ph) {
      LoopPaced(w, s, id, how, slot);
    } else {
      EarlyPaced(w, s, id, how, slot);
    }
  }

  ghost predicate AllPaced(s: State) {
    forall id :: 0 <= id < |s.calls| ==> PacedAt(s, id)
  }

  lemma OthersPaced(w: World, s: State, s': State, id: nat)
    requires AllPaced(s) && Touches(s, s', id) && CustodyStep(w, s.cu, s'.cu, id) && PacedAt(s', id)
    ensures AllPaced(s')
  {
    forall j | 0 <= j < |s'.calls| ensures PacedAt(s', j) {
      if j != id {
        assert SameFor(s.cu, s'.cu, j) && PacedAt(s, j);
      }
    }
  }

  lemma StepPaced(w: World, s: State, e: Event)
    requires WorldOk(w) && Inv(w, s) && Enabled(s, e) && AllPaced(s)
    ensures AllPaced(Step(w, s, e))
  {
    match e
    case Spawn(kind, first, rest) =>
      forall j | 0 <= j < |s.calls| + 1 ensures PacedAt(Step(w, s, e), j) {
        if j < |s.calls| {
          assert PacedAt(s, j);
        }
      }
    case Act(id, how, slot) =>
      KnowsBefore(w, s, id);
      MovedCustody(w, s, id, how, slot);
      MovedPaced(w, s, id, how, slot);
      OthersPaced(w, s, Moved(w, s, id, how, slot), id);
    case Cancel(id) =>
      CancelPaced(w, s, id);
    case Evict(key) =>
      forall j | 0 <= j < |s.calls| ensures PacedAt(Step(w, s, e), j) {
        assert PacedAt(s, j);
      }
  }

  lemma CancelPaced(w: World, s: State, id: nat)
    requires Inv(w, s) && Enabled(s, Cancel(id)) && AllPaced(s)
    ensures AllPaced(Step(w, s, Cancel(id)))
  {
    if id in s.cu.held {
      AbandonStep(w, s, id);
    }
    OthersPaced(w, s, Step(w, s, Cancel(id)), id);
  }

  lemma NextPaced(w: World, s: State, e: Event, s': State)
    requires WorldOk(w) && Inv(w, s) && Enabled(s, e) && AllPaced(s) && s' == Step(w, s, e)
    ensures AllPaced(s')
  {
    StepPaced(w, s, e);
  }

  lemma {:induction false} RunPaced(w: World, trace: seq<State>, events: seq<Event>, i: nat)
    requires WorldOk(w) && Run(w, trace, events) && i < |trace|
    ensures AllPaced(trace[i])
  {
    hide Trim, PoolKeys, Quiet, Touches, Early, Keeps, Tame, Loses;
    if i > 0 {
      RunPaced(w, trace, events, i - 1);
      RunKeeps(w, trace, events, i - 1);
      assert trace[i - 1 + 1] == Step(w, trace[i - 1], events[i - 1]);
      NextPaced(w, trace[i - 1], events[i - 1], trace[i]);
    }
  }

  /**
   * A batch that got past its first request and read no free permit gets no Ok result if it has
   * three requests or more; a batch of at most two never faults.
   */
  lemma FaultsOnlyIf(w: World, trace: seq<State>, events: seq<Event>, i: nat, id: nat)
    requires WorldOk(w) && Run(w, trace, events) && i < |trace| && id < |trace[i].calls|
    ensures var c := trace[i].calls[id];
      && (c.phase == Done(Fault) ==> Count(c) >= 3)
      && (c.phase.Done? && c.phase.out.Ok? && c.results != [] && Count(c) >= 3 ==> c.maxPar > 0)
  {
    RunKeeps(w, trace, events, i);
    RunPaced(w, trace, events, i);
    assert CallOk(w, trace[i], id) && PacedAt(trace[i], id);
  }

  /** The batch has requests left and, after a re-acquire, no container for them. */
  predicate Starved(s: State, id: nat) {
    id < |s.calls| && id in s.cu.held && s.calls[id].phase == Filling(0) && Left(s.calls[id]) > 0 && s.cu.held[id] == []
  }

  predicate MovesAt(events: seq<Event>, j: nat, id: nat) {
    j < |events| && events[j].Act? && events[j].id == id
  }

  lemma StarvedFaults(w: World, s: State, e: Event)
    requires Enabled(s, e) && e.Act? && Starved(s, e.id)
    ensures Step(w, s, e).calls[e.id].phase == Done(Fault)
  {
  }

  lemma FinishesNoFault(s: State, id: nat, out: Outcome)
    requires Has(s, id, 0) && s.calls[id].phase == Finishing(out) && !out.Fault?
    ensures Finishes(s, id, out).calls[id].phase != Done(Fault)
  {
  }

  lemma BeginsFault(s: State, id: nat)
    requires Has(s, id, 0) && s.calls[id].phase == Filling(0) && Begins(s, id).calls[id].phase == Done(Fault)
    ensures Starved(s, id)
  {
  }

  lemma EarlyNoFault(w: World, s: State, id: nat, how: How, slot: nat)
    requires Ready(s, id, slot) && !AfterLoad(s.calls[id].phase) && !s.calls[id].phase.Finishing?
    requires !s.calls[id].phase.Looking? && !s.calls[id].phase.Waiting? && !s.calls[id].phase.Admitted?
    ensures Moved(w, s, id, how, slot).calls[id].phase != Done(Fault)
  {
  }

  lemma EntryNoFault(w: World, s: State, id: nat, how: How, slot: nat)
    requires Ready(s, id, slot)
    requires s.calls[id].phase.Looking? || s.calls[id].phase.Waiting? || s.calls[id].phase.Admitted?
    ensures Moved(w, s, id, how, slot).calls[id].phase != Done(Fault)
  {
  }

  lemma FirstNoFault(w: World, s: State, id: nat, how: How, slot: nat)
    requires Ready(s, id, slot) && AfterLoad(s.calls[id].phase) && !Sized(s.calls[id].phase)
    ensures Moved(w, s, id, how, slot).calls[id].phase != Done(Fault)
  {
  }

  lemma LoopNoFault(w: World, s: State, id: nat, how: How, slot: nat)
    requires Ready(s, id, slot) && Sized(s.calls[id].phase) && !s.calls[id].phase.Filling?
    ensures Moved(w, s, id, how, slot).calls[id].phase != Done(Fault)
  {
  }

  lemma MovedFault(w: World, s: State, id: nat, how: How, slot: nat)
    requires Ready(s, id, slot) && s.calls[id].phase != Finishing(Fault)
    requires Moved(w, s, id, how, slot).calls[id].phase == Done(Fault)
    ensures Starved(s, id)
  {
    var ph := s.calls[id].phase;
    if ph.Finishing? {
      FinishesNoFault(s, id, ph.out);
    } else if ph == Filling(0) {
      BeginsFault(s, id);
    } else if ph.Looking? || ph.Waiting? || ph.Admitted? {
      EntryNoFault(w, s, id, how, slot);
    } else if !AfterLoad(ph) {
      EarlyNoFault(w, s, id, how, slot);
    } else if !Sized(ph) {
      FirstNoFault(w, s, id, how, slot);
    } else if !ph.Filling? {
      LoopNoFault(w, s, id, how, slot);
    }
  }

  lemma FaultsStarved(w: World, s: State, e: Event, id: nat)
    requires Enabled(s, e) && id < |s.calls| && !s.calls[id].phase.Done? && s.calls[id].phase != Finishing(Fault)
    requires Step(w, s, e).calls[id].phase == Done(Fault)
    ensures e.Act? && e.id == id && Starved(s, id)
  {
    if e.Act? {
      assert Touches(s, Moved(w, s, e.id, e.how, e.slot), e.id);
      if e.id == id {
        MovedFault(w, s, id, e.how, e.slot);
      }
    }
  }

  lemma NewIsNotDone(w: World, s: State, e: Event, id: nat)
    requires Enabled(s, e) && id < |Step(w, s, e).calls| && Step(w, s, e).calls[id].phase.Done?
    ensures id < |s.calls|
  {
  }

  /** No call is about to end in a fault in any other way. */
  lemma NoFaultAhead(w: World, trace: seq<State>, events: seq<Event>, i: nat, id: nat)
    requires WorldOk(w) && Run(w, trace, events) && i < |trace| && id < |trace[i].calls|
    ensures trace[i].calls[id].phase != Finishing(Fault)
  {
    RunKeeps(w, trace, events, i);
    assert CallOk(w, trace[i], id);
  }

  /** The step that ends a call in a fault. */
  lemma FaultsNow(w: World, s: State, e: Event, id: nat)
    requires Enabled(s, e) && id < |s.calls|
    requires s.calls[id].phase != Done(Fault) && s.calls[id].phase != Finishing(Fault)
    requires Step(w, s, e).calls[id].phase == Done(Fault)
    ensures e.Act? && e.id == id && Starved(s, id)
  {
    if s.calls[id].phase.Done? {
      DoneStays(w, s, e, id);
    }
    FaultsStarved(w, s, e, id);
  }

  lemma FaultsAt(w: World, trace: seq<State>, events: seq<Event>, i: nat, id: nat)
    requires WorldOk(w) && Run(w, trace, events) && i + 1 < |trace| && id < |trace[i].calls| <= |trace[i + 1].calls|
    requires trace[i].calls[id].phase != Done(Fault) && trace[i + 1].calls[id].phase == Done(Fault)
    ensures MovesAt(events, i, id) && Starved(trace[i], id)
  {
    NoFaultAhead(w, trace, events, i, id);
    FaultsNow(w, trace[i], events[i], id);
  }

  lemma BornBefore(w: World, trace: seq<State>, events: seq<Event>, i: nat, id: nat)
    requires Run(w, trace, events) && i < |trace| && id < |trace[i].calls| && trace[i].calls[id].phase.Done?
    ensures i > 0 && id < |trace[i - 1].calls| <= |trace[i].calls|
  {
    assert i > 0;
    assert trace[i - 1 + 1] == Step(w, trace[i - 1], events[i - 1]);
    NewIsNotDone(w, trace[i - 1], events[i - 1], id);
  }

  lemma {:induction false} FaultHadCause(w: World, trace: seq<State>, events: seq<Event>, i: nat, id: nat)
    returns (j: nat)
    requires WorldOk(w) && Run(w, trace, events) && i < |trace| && id < |trace[i].calls|
    requires trace[i].calls[id].phase == Done(Fault)
    ensures j < i && MovesAt(events, j, id) && Starved(trace[j], id)
  {
    hide WorldOk, Starved, MovesAt, Run;
    BornBefore(w, trace, events, i, id);
    RunLength(w, trace, events);
    if trace[i - 1].calls[id].phase == Done(Fault) {
      j := FaultHadCause(w, trace, events, i - 1, id);
    } else {
      FaultsAt(w, trace, events, i - 1, id);
      j := i - 1;
    }
  }

  lemma RunLength(w: World, trace: seq<State>, events: seq<Event>)
    requires Run(w, trace, events)
    ensures |trace| == |events| + 1
  {
  }

  /** In every run a batch ends in a fault if and only if it went on without a container while requests were left. */
  lemma FaultsExactly(w: World, trace: seq<State>, events: seq<Event>, i: nat, id: nat)
    requires WorldOk(w) && Run(w, trace, events) && i < |trace| && id < |trace[i].calls|
    ensures trace[i].calls[id].phase == Done(Fault) <==>
      exists j: nat :: j < i && MovesAt(events, j, id) && Starved(trace[j], id)
  {
    if trace[i].calls[id].phase == Done(Fault) {
      var j := FaultHadCause(w, trace, events, i, id);
    }
    if j: nat :| j < i && MovesAt(events, j, id) && Starved(trace[j], id) {
      StarvedFaults(w, trace[j], events[j]);
      assert trace[j + 1] == Step(w, trace[j], events[j]);
      DoneForEver(w, trace, events, j + 1, i, id);
    }
  }

  // ---------------------------------------------------------------- without failures

  /** None of the call's own operations has failed so far, and it was not cancelled. */
  predicate Untroubled(events: seq<Event>, n: nat, id: nat) {
    forall j :: 0 <= j < n && j < |events| ==>
      (events[j].Act? && events[j].id == id ==> events[j].how.Good?) && events[j] != Cancel(id)
  }

  /** The batch is past its first request, has something to run, and no error. */
  predicate Unbroken(c: Call) {
    c.results != [] && c.runnable ==>
      c.phase != Finishing(Err) && c.phase != Done(Err) && (c.phase.Chunk? ==> Broken !in c.phase.slots)
  }

  lemma SlotsUnbroken(w: World, s: State, id: nat, slots: seq<Slot>, i: nat)
    requires HasSlot(s, id, slots, i) && Unbroken(s.calls[id])
    ensures Unbroken(Slots(w, s, id, slots, i, Good).calls[id])
  {
    var c, x := s.calls[id], SlotAfter(w, s, id, slots, i, Good);
    if c.results != [] && c.runnable {
      assert slots[i] in slots;
      assert x != Broken;
      var slots' := slots[i := x];
      forall y | y in slots' ensures y != Broken {
        assert y in slots || y == x;
      }
    }
  }

  lemma LoadsUnbroken(w: World, s: State, id: nat, left: nat)
    requires Has(s, id, 1) && s.calls[id].phase == Loading(left)
    ensures Unbroken(Loads(w, s, id, left, Good).calls[id])
  {
  }

  lemma JoinsUnbroken(s: State, id: nat, slots: seq<Slot>)
    requires Has(s, id, 1) && s.calls[id].phase == Chunk(slots) && AllFinished(slots) && s.calls[id].results != []
    requires Unbroken(s.calls[id])
    ensures Unbroken(Joins(s, id, slots).calls[id])
  {
  }

  lemma FillsUnbroken(s: State, id: nat, left: nat)
    requires Has(s, id, 0) && s.calls[id].phase == Filling(left)
    ensures Unbroken(Fills(s, id, left).calls[id])
  {
  }

  lemma LoopUnbroken(w: World, s: State, id: nat, slot: nat)
    requires Ready(s, id, slot) && Unbroken(s.calls[id]) && Sized(s.calls[id].phase) && s.calls[id].results != []
    ensures Unbroken(Moved(w, s, id, Good, slot).calls[id])
  {
    var ph := s.calls[id].phase;
    if ph.Filling? {
      FillsUnbroken(s, id, ph.left);
    } else if ph.Loading? {
      LoadsUnbroken(w, s, id, ph.left);
    } else if ph.Chunk? {
      if AllFinished(ph.slots) {
        JoinsUnbroken(s, id, ph.slots);
      } else {
        SlotsUnbroken(w, s, id, ph.slots, slot);
      }
    }
  }

  lemma MovedUnbroken(w: World, s: State, id: nat, slot: nat)
    requires Ready(s, id, slot) && Unbroken(s.calls[id]) && PacedAt(s, id)
    requires Sized(s.calls[id].phase) ==> s.calls[id].results != []
    ensures Unbroken(Moved(w, s, id, Good, slot).calls[id])
  {
    var ph := s.calls[id].phase;
    if Sized(ph) {
      LoopUnbroken(w, s, id, slot);
    } else if !ph.Deciding? && !ph.Sizing? && !ph.Finishing? {
      assert Early(s, Moved(w, s, id, Good, slot), id);
    }
  }

  lemma SizedHasResult(w: World, s: State, id: nat)
    requires Inv(w, s) && id < |s.calls| && Sized(s.calls[id].phase)
    ensures s.calls[id].results != []
  {
    assert CallOk(w, s, id);
  }

  lemma {:induction false} RunUnbroken(w: World, trace: seq<State>, events: seq<Event>, i: nat, id: nat)
    requires WorldOk(w) && Run(w, trace, events) && i < |trace| && id < |trace[i].calls| && Untroubled(events, i, id)
    ensures Unbroken(trace[i].calls[id])
  {
    if i > 0 {
      var s, e := trace[i - 1], events[i - 1];
      assert trace[i - 1 + 1] == Step(w, s, e);
      if id < |s.calls| {
        RunUnbroken(w, trace, events, i - 1, id);
        RunPaced(w, trace, events, i - 1);
        if e.Act? && e.id == id {
          assert PacedAt(s, id);
          if Sized(s.calls[id].phase) {
            RunKeeps(w, trace, events, i - 1);
            SizedHasResult(w, s, id);
          }
          MovedUnbroken(w, s, id, e.slot);
        }
      }
    }
  }

  /**
   * A batch that got past its first request, read no free permit, had no failure of its own and was not
   * cancelled, ends in a fault if and only if it has three requests or more.
   */
  lemma FaultsWithoutPermits(w: World, trace: seq<State>, events: seq<Event>, i: nat, id: nat)
    requires WorldOk(w) && Run(w, trace, events) && i < |trace| && id < |trace[i].calls| && Untroubled(events, i, id)
    requires var c := trace[i].calls[id]; c.phase.Done? && c.results != [] && c.runnable && c.maxPar == 0
    ensures trace[i].calls[id].phase == Done(Fault) <==> Count(trace[i].calls[id]) >= 3
  {
    FaultsOnlyIf(w, trace, events, i, id);
    RunUnbroken(w, trace, events, i, id);
  }
}
