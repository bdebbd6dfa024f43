/**
 * How a call ends that has obtained a container: with an error exactly if an operation that matters
 * failed or it was cancelled. And what becomes of its containers when the error is handled.
 */
module Endings {
  import opened Options
  import opened Text
  import opened Platform
  import opened Keys
  import opened Store
  import opened Compilers
  import opened Custody
  import opened ContainerPool
  import opened Engine
  import opened Meaning
  import opened Invariants
  import opened Outcomes

  import Interference
  import Reachability
  import Theorems

  // ---------------------------------------------------------------- what matters

  /** The operation of the next move fails, and the code neither goes on without it nor has another way. */
  predicate FailsIn(w: World, s: State, id: nat, how: How, slot: nat)
    requires id < |s.calls|
  {
    var c := s.calls[id];
    match c.phase
    case Uploading(_) => !how.Good?
    case Compiling => !how.Good?
    case Archiving => how.Hard?
    case Writing => !how.Good?
    case Running => !how.Good?
    case Loading(_) => how.Hard? && (Compiled(ProgOf(c).lang) ==> ArtifactHit(s.redis, ArtifactKey(w, ProgOf(c))).Some?)
    case Chunk(slots) => slot < |slots| && slots[slot].Missed? && !how.Good?
    case _ => false
  }

  predicate Harms(w: World, s: State, e: Event, id: nat)
    requires id < |s.calls|
  {
    (e == Cancel(id)) || (e.Act? && e.id == id && FailsIn(w, s, id, e.how, e.slot))
  }

  /** The call has its first container, and nothing has gone wrong. */
  predicate Fine(c: Call) {
    match c.phase
    case Looking => false
    case Waiting => false
    case Admitted => false
    case Finishing(out) => !out.Err?
    case Done(out) => !out.Err?
    case Chunk(slots) => Broken !in slots && c.stderr == ""
    case _ => c.phase.Sizing? || Sized(c.phase) ==> c.stderr == ""
  }

  /** It can only end with an error any more. */
  predicate Doomed(c: Call) {
    || c.phase == Finishing(Err) || c.phase == Done(Err)
    || (c.phase.Chunk? && Broken in c.phase.slots)
  }

  // ---------------------------------------------------------------- one move

  lemma FirstFine(w: World, s: State, id: nat, how: How, slot: nat)
    requires Inv(w, s) && Ready(s, id, slot) && s.calls[id].phase.Admitted?
    requires HeldOf(Moved(w, s, id, how, slot), id) != []
    ensures Fine(Moved(w, s, id, how, slot).calls[id])
  {
    hide Trim, PoolKeys, Touches, Quiet, Loses, Early, Keeps, Tame, Take;
    assert CallOk(w, s, id);
  }

  lemma CompileFine(w: World, s: State, id: nat, how: How, s': State)
    requires ReadsSource(w) && Has(s, id, 1) && Doable(w, s.calls[id]) && Compiled(ProgOf(s.calls[id]).lang)
    requires s' == Compiles(w, s, id, how)
    ensures if how.Good? then Fine(s'.calls[id]) else Doomed(s'.calls[id])
  {
    hide Trim, PoolKeys, Touches, Quiet, Loses, Early, Keeps, Tame, OneDocument, Scripted, BuildsWell;
    var p := ProgOf(s.calls[id]);
    assert BuildIn(w, p, s.files[Box(s, id, 0)]) == FreshBuild(w, p);
  }

  lemma ArchiveFine(w: World, s: State, id: nat, how: How, s': State)
    requires Has(s, id, 1) && s.calls[id].phase.Archiving? && CallOk(w, s, id) && Doable(w, s.calls[id])
    requires s' == Archives(w, s, id, how)
    ensures if how.Hard? then Doomed(s'.calls[id]) else Fine(s'.calls[id])
  {
    hide Trim, PoolKeys, Touches, Quiet, Loses, Early, Keeps, Tame, OneDocument, Scripted, BuildIn, ArtifactKey,
      FromRuns, Unreported, Right, Filled;
    var p := ProgOf(s.calls[id]);
    assert FreshBuild(w, p).Built? && Primary(p.lang) in Program(w, p);
  }

  lemma LoadFine(w: World, s: State, id: nat, how: How, slot: nat)
    requires WorldOk(w) && id < |s.calls| && CallOk(w, s, id) && Ready(s, id, slot) && Doable(w, s.calls[id])
    requires var ph := s.calls[id].phase; ph.Artifact? || ph.Uploading? || ph.Compiling? || ph.Archiving?
    ensures var c' := Moved(w, s, id, how, slot).calls[id];
      if FailsIn(w, s, id, how, slot) then Doomed(c') else Fine(c')
  {
    hide Trim, PoolKeys, Touches, Quiet, Loses, Early, Keeps, Tame, Take, Compiles, Archives, ArtifactKey, Unpacked,
      Digests, Local, ReadsSource, Complains, FreshBuild, Doable, Filled, BuiltHere, FromRuns, Unreported, Right;
    if s.calls[id].phase.Compiling? {
      CompileFine(w, s, id, how, Moved(w, s, id, how, slot));
    } else if s.calls[id].phase.Archiving? {
      ArchiveFine(w, s, id, how, Moved(w, s, id, how, slot));
    }
  }

  lemma RunFine(w: World, s: State, id: nat, how: How, slot: nat)
    requires id < |s.calls| && CallOk(w, s, id) && Ready(s, id, slot) && Doable(w, s.calls[id])
    requires s.calls[id].phase.Running?
    ensures var c' := Moved(w, s, id, how, slot).calls[id];
      if FailsIn(w, s, id, how, slot) then Doomed(c') else Fine(c')
  {
    hide Trim, PoolKeys, Touches, Quiet, Loses, Early, Keeps, Tame, Take;
    var c := s.calls[id];
    if Refused(c, 0, Prepared(c.runnable, c.stderr)) {
      RefusedIsUndoable(w, c, 0, Prepared(c.runnable, c.stderr));
    }
  }

  lemma LookupGoesOn(w: World, s: State, id: nat, how: How, s': State)
    requires Has(s, id, 1) && s' == LooksUp(w, s, id, how)
    ensures Fine(s'.calls[id])
  {
    hide Trim, PoolKeys, Touches, Quiet, Loses, Early, Keeps, Tame, Take;
  }

  lemma FirstGoesOn(w: World, s: State, id: nat, how: How, slot: nat)
    requires Ready(s, id, slot) && Fine(s.calls[id])
    requires var ph := s.calls[id].phase; ph.Lookup? || ph.Writing? || ph.Storing? || ph.Deciding?
    ensures var c' := Moved(w, s, id, how, slot).calls[id];
      if FailsIn(w, s, id, how, slot) then Doomed(c') else Fine(c')
  {
    hide Trim, PoolKeys, Touches, Quiet, Loses, Early, Keeps, Tame, Take, LooksUp, ResultKey, Pop;
    if s.calls[id].phase.Lookup? {
      LookupGoesOn(w, s, id, how, Moved(w, s, id, how, slot));
    }
  }

  lemma FirstRunFine(w: World, s: State, id: nat, how: How, slot: nat)
    requires id < |s.calls| && CallOk(w, s, id) && Ready(s, id, slot) && Fine(s.calls[id]) && Doable(w, s.calls[id])
    requires var ph := s.calls[id].phase; ph.Lookup? || ph.Writing? || ph.Running? || ph.Storing? || ph.Deciding?
    ensures var c' := Moved(w, s, id, how, slot).calls[id];
      if FailsIn(w, s, id, how, slot) then Doomed(c') else Fine(c')
  {
    hide Trim, PoolKeys, Touches, Fine, Doomed, FailsIn, Moved, CallOk, Doable;
    if s.calls[id].phase.Running? {
      RunFine(w, s, id, how, slot);
    } else {
      FirstGoesOn(w, s, id, how, slot);
    }
  }

  lemma SlotFine(w: World, s: State, id: nat, slots: seq<Slot>, how: How, slot: nat)
    requires id < |s.calls| && CallOk(w, s, id) && Ready(s, id, slot) && Fine(s.calls[id]) && Doable(w, s.calls[id])
    requires s.calls[id].phase == Chunk(slots) && !AllFinished(slots)
    ensures var c' := Moved(w, s, id, how, slot).calls[id];
      if FailsIn(w, s, id, how, slot) then Doomed(c') else Fine(c')
  {
    hide Trim, PoolKeys, Touches, Quiet, Loses, Early, Keeps, Tame, Take, Key, Filled, FreshBuild, OneDocument,
      Unreported;
    var c := s.calls[id];
    var k := |c.results| + slot;
    if slots[slot].Missed? && Refused(c, k, Prepared(c.runnable, c.stderr)) {
      RefusedIsUndoable(w, c, k, Prepared(c.runnable, c.stderr));
    }
    var x := SlotAfter(w, s, id, slots, slot, how);
    BrokenNext(slots, slot, x);
    assert slots[slot := x][slot] == x;
  }

  lemma LoadingGoesOn(w: World, s: State, id: nat, how: How, slot: nat)
    requires Ready(s, id, slot) && Fine(s.calls[id]) && s.calls[id].phase.Loading?
    ensures var c' := Moved(w, s, id, how, slot).calls[id];
      if FailsIn(w, s, id, how, slot) then Doomed(c') else Fine(c')
  {
    hide Trim, PoolKeys, Touches, Quiet, Loses, Early, Keeps, Tame, Take;
  }

  lemma GrowingGoesOn(s: State, id: nat, left: nat, s': State)
    requires Has(s, id, 0) && s.calls[id].stderr == "" && s' == Grows(s, id, left)
    ensures Fine(s'.calls[id])
  {
    hide Trim, PoolKeys, Touches, Quiet, Loses, Early, Keeps, Tame, Take;
  }

  lemma BeginningGoesOn(s: State, id: nat, s': State)
    requires Has(s, id, 0) && s.calls[id].stderr == "" && s' == Begins(s, id)
    ensures Fine(s'.calls[id])
  {
    hide Trim, PoolKeys, Touches, Quiet, Loses, Early, Keeps, Tame, Take;
  }

  lemma FillingGoesOn(w: World, s: State, id: nat, how: How, slot: nat)
    requires Ready(s, id, slot) && Fine(s.calls[id]) && s.calls[id].phase.Filling?
    ensures Fine(Moved(w, s, id, how, slot).calls[id])
  {
    hide Trim, PoolKeys, Touches, Quiet, Loses, Early, Keeps, Tame, Take, Grows, Begins;
    var left, s' := s.calls[id].phase.left, Moved(w, s, id, how, slot);
    if left > 0 {
      GrowingGoesOn(s, id, left - 1, s');
    } else {
      BeginningGoesOn(s, id, s');
    }
  }

  /** Taking, loading and handing back containers goes on whatever the lookups find. */
  lemma GoesOn(w: World, s: State, id: nat, how: How, slot: nat)
    requires Ready(s, id, slot) && Fine(s.calls[id])
    requires var ph := s.calls[id].phase;
      ph.Sizing? || ph.Filling? || ph.Loading? || ph.Draining? || ph.Finishing? || (ph.Chunk? && AllFinished(ph.slots))
    ensures var c' := Moved(w, s, id, how, slot).calls[id];
      if FailsIn(w, s, id, how, slot) then Doomed(c') else Fine(c')
  {
    hide Trim, PoolKeys, Touches, Quiet, Loses, Early, Keeps, Tame, Take;
    if s.calls[id].phase.Loading? {
      LoadingGoesOn(w, s, id, how, slot);
    } else if s.calls[id].phase.Filling? {
      FillingGoesOn(w, s, id, how, slot);
    }
  }

  lemma LoopFine(w: World, s: State, id: nat, how: How, slot: nat)
    requires id < |s.calls| && CallOk(w, s, id) && Ready(s, id, slot) && Fine(s.calls[id]) && Doable(w, s.calls[id])
    requires var ph := s.calls[id].phase; ph.Sizing? || Sized(ph) || ph.Finishing?
    ensures var c' := Moved(w, s, id, how, slot).calls[id];
      if FailsIn(w, s, id, how, slot) then Doomed(c') else Fine(c')
  {
    hide Trim, PoolKeys, Touches, Quiet, Loses, Early, Keeps, Tame, FailsIn, Fine, Doomed, CallOk, Doable;
    var ph := s.calls[id].phase;
    if ph.Chunk? && !AllFinished(ph.slots) {
      SlotFine(w, s, id, ph.slots, how, slot);
    } else {
      GoesOn(w, s, id, how, slot);
    }
  }

  /** A failure that matters dooms the call, and nothing else does. */
  lemma MoveFine(w: World, s: State, id: nat, how: How, slot: nat)
    requires WorldOk(w) && Inv(w, s) && Ready(s, id, slot) && Fine(s.calls[id]) && Doable(w, s.calls[id])
    ensures var c' := Moved(w, s, id, how, slot).calls[id];
      if FailsIn(w, s, id, how, slot) then Doomed(c') else Fine(c')
  {
    hide Trim, PoolKeys, Touches, Quiet, Loses, Early, Keeps, Tame, FailsIn, Doomed, Doable, Moved;
    assert CallOk(w, s, id);
    var ph := s.calls[id].phase;
    if ph.Artifact? || ph.Uploading? || ph.Compiling? || ph.Archiving? {
      LoadFine(w, s, id, how, slot);
    } else if ph.Sizing? || Sized(ph) || ph.Finishing? {
      LoopFine(w, s, id, how, slot);
    } else {
      FirstRunFine(w, s, id, how, slot);
    }
  }

  lemma MoveDoomed(w: World, s: State, id: nat, how: How, slot: nat)
    requires Ready(s, id, slot) && Doomed(s.calls[id])
    ensures Doomed(Moved(w, s, id, how, slot).calls[id])
  {
    hide Trim, PoolKeys, Touches, Quiet, Loses, Early, Keeps, Tame, Take;
    var ph := s.calls[id].phase;
    if ph.Chunk? && !AllFinished(ph.slots) {
      var j :| 0 <= j < |ph.slots| && ph.slots[j] == Broken;
      var x := SlotAfter(w, s, id, ph.slots, slot, how);
      assert ph.slots[slot := x][j] == Broken;
    }
  }

  lemma StepSame(w: World, s: State, e: Event, id: nat)
    requires Enabled(s, e) && id < |s.calls|
    ensures id < |Step(w, s, e).calls| && SameCall(s.calls[id], Step(w, s, e).calls[id])
    ensures e == Cancel(id) ==> Step(w, s, e).calls[id].phase == Done(Err)
  {
    hide Trim, PoolKeys, Loses, Early, Keeps, Tame, Ready;
    if e.Act? {
      assert Touches(s, Moved(w, s, e.id, e.how, e.slot), e.id);
    }
  }

  lemma StepFine(w: World, s: State, e: Event, id: nat)
    requires WorldOk(w) && Inv(w, s) && Enabled(s, e) && id < |s.calls| && Doable(w, s.calls[id])
    ensures id < |Step(w, s, e).calls| && SameCall(s.calls[id], Step(w, s, e).calls[id])
    ensures Doomed(s.calls[id]) ==> Doomed(Step(w, s, e).calls[id])
    ensures Fine(s.calls[id]) ==>
      if Harms(w, s, e, id) then Doomed(Step(w, s, e).calls[id]) else Fine(Step(w, s, e).calls[id])
  {
    hide Trim, PoolKeys, Touches, Quiet, Loses, Early, Keeps, Tame, FailsIn, Fine, Doable, Inv, WorldOk, Moved,
      SameCall;
    StepSame(w, s, e, id);
    if e.Act? && e.id == id {
      if Doomed(s.calls[id]) {
        MoveDoomed(w, s, id, e.how, e.slot);
      }
      if Fine(s.calls[id]) {
        MoveFine(w, s, id, e.how, e.slot);
      }
    } else if e != Cancel(id) {
      Interference.StepLeaves(w, s, e, id);
    }
  }

  // ---------------------------------------------------------------- over whole runs

  /** Between these two states an operation that matters has failed, or the call was cancelled. */
  ghost predicate Harmed(w: World, trace: seq<State>, events: seq<Event>, j: nat, i: nat, id: nat)
    requires j <= i < |trace| && |trace| == |events| + 1
  {
    exists k :: j <= k < i && id < |trace[k].calls| && Harms(w, trace[k], events[k], id)
  }

  lemma {:induction false} FineOrDoomed(w: World, trace: seq<State>, events: seq<Event>, j: nat, i: nat, id: nat)
    requires WorldOk(w) && Run(w, trace, events) && j <= i < |trace| && id < |trace[j].calls|
    requires Fine(trace[j].calls[id]) && Doable(w, trace[j].calls[id])
    ensures id < |trace[i].calls| && Doable(w, trace[i].calls[id])
    ensures trace[i].calls[id].kind == trace[j].calls[id].kind
    ensures if Harmed(w, trace, events, j, i, id) then Doomed(trace[i].calls[id]) else Fine(trace[i].calls[id])
  {
    hide Fine, Doomed, Harms, Inv, WorldOk, Step, Enabled;
    if j < i {
      FineOrDoomed(w, trace, events, j, i - 1, id);
      Reachability.RunKeeps(w, trace, events, i - 1);
      StepFine(w, trace[i - 1], events[i - 1], id);
      assert trace[i - 1 + 1] == Step(w, trace[i - 1], events[i - 1]);
      HarmedMore(w, trace, events, j, i, id);
    }
  }

  lemma HarmedMore(w: World, trace: seq<State>, events: seq<Event>, j: nat, i: nat, id: nat)
    requires j < i < |trace| && |trace| == |events| + 1 && id < |trace[i - 1].calls|
    ensures Harmed(w, trace, events, j, i, id) <==>
      Harmed(w, trace, events, j, i - 1, id) || Harms(w, trace[i - 1], events[i - 1], id)
  {
  }

  /** The call gets its first container in this step. */
  predicate Obtains(trace: seq<State>, j: nat, id: nat)
    requires j + 1 < |trace|
  {
    id < |trace[j].calls| && trace[j].calls[id].phase.Admitted? && HeldOf(trace[j + 1], id) != []
  }

  /**
   * A call that has obtained a container, and whose program can be built and has something to run, ends
   * with an error if and only if an operation that matters has failed since or it was cancelled, whatever
   * other calls do. In particular no failure of the cache makes it fail, nor does what others leave behind.
   */
  lemma ErrExactly(w: World, trace: seq<State>, events: seq<Event>, j: nat, i: nat, id: nat)
    requires WorldOk(w) && Run(w, trace, events) && j < i < |trace| && Obtains(trace, j, id)
    requires Doable(w, trace[j].calls[id]) && id < |trace[i].calls| && trace[i].calls[id].phase.Done?
    ensures trace[i].calls[id].phase == Done(Err) <==> Harmed(w, trace, events, j + 1, i, id)
  {
    hide Inv, WorldOk, Step, Enabled, Doable, Fine, Harmed;
    Reachability.RunKeeps(w, trace, events, j);
    assert trace[j + 1] == Step(w, trace[j], events[j]);
    StepSame(w, trace[j], events[j], id);
    FirstStepFine(w, trace[j], events[j], id);
    DoableStays(w, trace[j].calls[id], trace[j + 1].calls[id]);
    FineOrDoomed(w, trace, events, j + 1, i, id);
    FineOrErr(trace[i].calls[id]);
  }

  lemma FineOrErr(c: Call)
    requires c.phase.Done?
    ensures if c.phase == Done(Err) then !Fine(c) else !Doomed(c)
  {
  }

  lemma DoableStays(w: World, c: Call, c': Call)
    requires SameCall(c, c') && Doable(w, c)
    ensures Doable(w, c')
  {
  }

  lemma FirstStepFine(w: World, s: State, e: Event, id: nat)
    requires WorldOk(w) && Inv(w, s) && Enabled(s, e) && id < |s.calls| && s.calls[id].phase.Admitted?
    requires HeldOf(Step(w, s, e), id) != [] && id < |Step(w, s, e).calls|
    ensures Fine(Step(w, s, e).calls[id])
  {
    hide Inv, WorldOk, Moved, Fine;
    OnlyOwn(w, s, e, id);
    FirstFine(w, s, id, e.how, e.slot);
  }

  lemma OnlyOwn(w: World, s: State, e: Event, id: nat)
    requires WorldOk(w) && Inv(w, s) && Enabled(s, e) && id < |s.calls| && s.calls[id].phase.Admitted?
    requires HeldOf(Step(w, s, e), id) != []
    ensures e.Act? && e.id == id
  {
    assert CallOk(w, s, id);
    if !Interference.Of(e, id) {
      Interference.StepLeaves(w, s, e, id);
    }
  }

  /** So an `execute` that nothing like that happens to has a result, and a batch has its results or faults. */
  lemma UnharmedEndsWell(w: World, trace: seq<State>, events: seq<Event>, j: nat, i: nat, id: nat)
    requires WorldOk(w) && Run(w, trace, events) && j < i < |trace| && Obtains(trace, j, id)
    requires Doable(w, trace[j].calls[id]) && id < |trace[i].calls| && trace[i].calls[id].phase.Done?
    requires !Harmed(w, trace, events, j + 1, i, id)
    ensures trace[i].calls[id].phase.out.Fault? ==> trace[i].calls[id].kind.Batch? && Count(trace[i].calls[id]) >= 3
    ensures !trace[i].calls[id].phase.out.Fault? ==> trace[i].calls[id].phase.out.Ok?
  {
    ErrExactly(w, trace, events, j, i, id);
    Reachability.RunKeeps(w, trace, events, i);
    assert CallOk(w, trace[i], id);
  }

  // ---------------------------------------------------------------- lost containers

  /** The call gives up in this step without handing back what it holds. */
  predicate GivesUp(w: World, s: State, e: Event)
    requires Enabled(s, e) && (e.Act? || e.Cancel?)
  {
    var c := s.calls[e.id];
    if e.Cancel? then true
    else
      match c.phase
      case Uploading(_) => !e.how.Good?
      case Compiling => !e.how.Good?
      case Archiving =>
        var name, files := Primary(ProgOf(c).lang), s.files[Box(s, e.id, 0)];
        e.how.Hard? || name !in files || files[name] == ""
      case Writing => e.how.Hard?
      case Running => e.how.Hard? || (e.how.Good? && !c.runnable && c.first.stdin.None?)
      case Loading(_) => FailsIn(w, s, e.id, e.how, e.slot)
      case Chunk(slots) => AllFinished(slots) && Broken in slots
      case _ => false
  }

  /**
   * A step loses containers if and only if a call gives up in it, and then all those that it holds: a late or failed
   * write or run of a first request, for one, loses none unless it is passed on.
   */
  lemma LosesExactly(w: World, s: State, e: Event)
    requires Enabled(s, e)
    ensures Step(w, s, e).cu.lost ==
      s.cu.lost + (if (e.Act? || e.Cancel?) && GivesUp(w, s, e) then Elems(HeldOf(s, e.id)) else {})
  {
    hide Trim, PoolKeys, Touches, Loses, Early, Keeps, Tame, Scripted, BuildIn, ResultKey, Unpacked;
    if e.Act? {
      MoveLoses(w, s, e.id, e.how, e.slot);
    }
  }

  lemma StartLoses(w: World, s: State, id: nat, how: How, slot: nat)
    requires Ready(s, id, slot)
    requires var ph := s.calls[id].phase; ph.Looking? || ph.Waiting? || ph.Admitted?
    ensures Moved(w, s, id, how, slot).cu.lost ==
      s.cu.lost + (if GivesUp(w, s, Act(id, how, slot)) then Elems(HeldOf(s, id)) else {})
  {
    hide Trim, PoolKeys, Touches, Loses, Early, Keeps, Tame, Scripted, BuildIn, ResultKey, Unpacked, Take;
  }

  lemma LoadLoses(w: World, s: State, id: nat, how: How, slot: nat)
    requires Ready(s, id, slot)
    requires var ph := s.calls[id].phase; ph.Artifact? || ph.Uploading? || ph.Compiling? || ph.Archiving?
    ensures Moved(w, s, id, how, slot).cu.lost ==
      s.cu.lost + (if GivesUp(w, s, Act(id, how, slot)) then Elems(HeldOf(s, id)) else {})
  {
    hide Trim, PoolKeys, Touches, Loses, Early, Keeps, Tame, Scripted, BuildIn, ResultKey, Unpacked, Take;
  }

  lemma FirstLoses(w: World, s: State, id: nat, how: How, slot: nat)
    requires Ready(s, id, slot)
    requires var ph := s.calls[id].phase; ph.Lookup? || ph.Writing? || ph.Running? || ph.Storing? || ph.Deciding?
    ensures Moved(w, s, id, how, slot).cu.lost ==
      s.cu.lost + (if GivesUp(w, s, Act(id, how, slot)) then Elems(HeldOf(s, id)) else {})
  {
    hide Trim, PoolKeys, Touches, Loses, Early, Keeps, Tame, Scripted, BuildIn, ResultKey, Unpacked, Take;
  }

  lemma ChunkLoses(w: World, s: State, id: nat, how: How, slot: nat)
    requires Ready(s, id, slot)
    requires var ph := s.calls[id].phase; ph.Loading? || ph.Chunk?
    ensures Moved(w, s, id, how, slot).cu.lost ==
      s.cu.lost + (if GivesUp(w, s, Act(id, how, slot)) then Elems(HeldOf(s, id)) else {})
  {
    hide Trim, PoolKeys, Touches, Loses, Early, Keeps, Tame, Scripted, BuildIn, ResultKey, Unpacked, Take;
  }

  lemma HandsLose(w: World, s: State, id: nat, how: How, slot: nat)
    requires Ready(s, id, slot)
    requires var ph := s.calls[id].phase; ph.Sizing? || ph.Filling? || ph.Draining? || ph.Finishing?
    ensures Moved(w, s, id, how, slot).cu.lost ==
      s.cu.lost + (if GivesUp(w, s, Act(id, how, slot)) then Elems(HeldOf(s, id)) else {})
  {
    hide Trim, PoolKeys, Touches, Loses, Early, Keeps, Tame, Scripted, BuildIn, ResultKey, Unpacked, Take;
  }

  lemma MoveLoses(w: World, s: State, id: nat, how: How, slot: nat)
    requires Ready(s, id, slot)
    ensures Moved(w, s, id, how, slot).cu.lost ==
      s.cu.lost + (if GivesUp(w, s, Act(id, how, slot)) then Elems(HeldOf(s, id)) else {})
  {
    hide Trim, PoolKeys, Touches, Loses, Early, Keeps, Tame, Scripted, BuildIn, ResultKey, Unpacked, Take, Moved,
      GivesUp;
    var ph := s.calls[id].phase;
    if ph.Artifact? || ph.Uploading? || ph.Compiling? || ph.Archiving? {
      LoadLoses(w, s, id, how, slot);
    } else if ph.Lookup? || ph.Writing? || ph.Running? || ph.Storing? || ph.Deciding? {
      FirstLoses(w, s, id, how, slot);
    } else if ph.Loading? || ph.Chunk? {
      ChunkLoses(w, s, id, how, slot);
    } else if ph.Sizing? || ph.Filling? || ph.Draining? || ph.Finishing? {
      HandsLose(w, s, id, how, slot);
    } else {
      StartLoses(w, s, id, how, slot);
    }
  }

  // ---------------------------------------------------------------- the share of a batch

  /** The batch is taking and loading containers. */
  predicate FillsHands(ph: Phase) {
    ph.Filling? || ph.Loading?
  }

  /** Containers in hand, and attempts left. */
  function HandsAndTries(s: State, id: nat): nat
    requires id < |s.calls| && FillsHands(s.calls[id].phase)
  {
    |HeldOf(s, id)| + s.calls[id].phase.left
  }

  /** The batch tries for another container, and there is none. */
  predicate TriesInVain(s: State, e: Event, id: nat)
    requires id < |s.calls|
  {
    && e.Act? && e.id == id && s.calls[id].phase.Filling? && s.calls[id].phase.left > 0
    && Depth(s.cu.pool, KeyOf(ProgOf(s.calls[id]))) == 0
  }

  lemma GrowTries(s: State, id: nat, left: nat, s': State)
    requires Has(s, id, 0) && s' == Grows(s, id, left)
    ensures FillsHands(s'.calls[id].phase)
    ensures var found := Depth(s.cu.pool, KeyOf(ProgOf(s.calls[id]))) > 0;
      HandsAndTries(s', id) == |HeldOf(s, id)| + left + if found then 1 else 0
  {
    hide Trim, PoolKeys, Touches, Loses, Early, Keeps, Tame, Scripted, BuildIn, ResultKey, Unpacked, ArtifactKey;
  }

  lemma LoadTries(w: World, s: State, id: nat, left: nat, how: How, s': State)
    requires Has(s, id, 1) && s' == Loads(w, s, id, left, how)
    ensures FillsHands(s'.calls[id].phase) ==> HandsAndTries(s', id) == |HeldOf(s, id)| + left
  {
    hide Trim, PoolKeys, Touches, Loses, Early, Keeps, Tame, Scripted, BuildIn, ResultKey, Unpacked, ArtifactKey;
  }

  lemma MoveTries(w: World, s: State, id: nat, how: How, slot: nat)
    requires Ready(s, id, slot) && FillsHands(s.calls[id].phase)
    ensures var s' := Moved(w, s, id, how, slot);
      FillsHands(s'.calls[id].phase) ==>
        HandsAndTries(s, id) == HandsAndTries(s', id) + if TriesInVain(s, Act(id, how, slot), id) then 1 else 0
  {
    hide Trim, PoolKeys, Touches, Loses, Early, Keeps, Tame, Grows, Loads, Take;
    var ph, s' := s.calls[id].phase, Moved(w, s, id, how, slot);
    if ph.Loading? {
      LoadTries(w, s, id, ph.left, how, s');
    } else if ph.left > 0 {
      GrowTries(s, id, ph.left - 1, s');
    }
  }

  lemma StepTries(w: World, s: State, e: Event, id: nat)
    requires WorldOk(w) && Inv(w, s) && Enabled(s, e) && id < |s.calls| && FillsHands(s.calls[id].phase)
    ensures id < |Step(w, s, e).calls|
    ensures var s' := Step(w, s, e);
      FillsHands(s'.calls[id].phase) ==>
        HandsAndTries(s, id) == HandsAndTries(s', id) + if TriesInVain(s, e, id) then 1 else 0
  {
    hide Inv, WorldOk, Moved;
    StepSame(w, s, e, id);
    if e.Act? && e.id == id {
      MoveTries(w, s, id, e.how, e.slot);
    } else if e != Cancel(id) {
      Interference.StepLeaves(w, s, e, id);
    }
  }

  /** How often it does so between these states. */
  function InVain(trace: seq<State>, events: seq<Event>, j: nat, i: nat, id: nat): nat
    requires j <= i < |trace| == |events| + 1
    requires forall k :: j <= k < i ==> id < |trace[k].calls|
  {
    if i == j then 0
    else InVain(trace, events, j, i - 1, id) + if TriesInVain(trace[i - 1], events[i - 1], id) then 1 else 0
  }

  /**
   * In every run, a batch that fills its hands makes all its attempts, whatever the others find: containers in hand,
   * attempts left, and attempts for which there was none, add up to the same all the time.
   */
  lemma {:induction false} TriesAll(w: World, trace: seq<State>, events: seq<Event>, j: nat, i: nat, id: nat)
    requires WorldOk(w) && Run(w, trace, events) && j <= i < |trace|
    requires forall k :: j <= k <= i ==> id < |trace[k].calls| && FillsHands(trace[k].calls[id].phase)
    ensures HandsAndTries(trace[i], id) + InVain(trace, events, j, i, id) == HandsAndTries(trace[j], id)
  {
    hide Inv, WorldOk, Step, Enabled, HandsAndTries, TriesInVain, FillsHands, Init;
    if j < i {
      TriesAll(w, trace, events, j, i - 1, id);
      Reachability.RunKeeps(w, trace, events, i - 1);
      StepTries(w, trace[i - 1], events[i - 1], id);
      assert trace[i - 1 + 1] == Step(w, trace[i - 1], events[i - 1]);
    }
  }

  /** Before the first chunk it starts with the container it has, and one attempt for each further permit it may use. */
  lemma SizesTries(w: World, s: State, id: nat, how: How, slot: nat)
    requires Inv(w, s) && Ready(s, id, slot) && s.calls[id].phase.Sizing?
    ensures var s' := Moved(w, s, id, how, slot);
      FillsHands(s'.calls[id].phase) && HandsAndTries(s', id) == Max(1, Min(s.cu.permits, |s.calls[id].rest|))
  {
    hide Trim, PoolKeys, Touches, Loses, Early, Keeps, Tame, Scripted, BuildIn, ResultKey, Unpacked, ArtifactKey;
    assert CallOk(w, s, id);
  }

  /** Before any other it starts with none, and as many attempts as the permits it read allow. */
  lemma DrainsTries(w: World, s: State, id: nat, how: How, slot: nat)
    requires Ready(s, id, slot) && s.calls[id].phase.Draining?
    ensures var s' := Moved(w, s, id, how, slot);
      FillsHands(s'.calls[id].phase) ==> HeldOf(s', id) == [] && HandsAndTries(s', id) == s.calls[id].maxPar
  {
    hide Trim, PoolKeys, Touches, Loses, Early, Keeps, Tame, Scripted, BuildIn, ResultKey, Unpacked, ArtifactKey;
  }

  // ---------------------------------------------------------------- refused requests

  /** The call has had no container and no result. */
  predicate Unserved(s: State, id: nat)
    requires id < |s.calls|
  {
    var ph := s.calls[id].phase;
    && HeldOf(s, id) == []
    && (ph.Looking? || ph.Waiting? || ph.Admitted? || ph == Finishing(Err) || ph == Done(Err))
  }

  /** Only requests of configured languages, given without white space around them, are found early. */
  lemma FoundIsSupported(w: World, s: State, r: Request)
    requires WorldOk(w) && StoreOk(w, s) && ResultHit(s.redis, EarlyKey(w, r)).Some?
    ensures Supported(r)
  {
    hide Trim, PoolKeys, Local, ReadsSource, Complains, StoreGood, Digests, FreshBuild, OneDocument;
    HitIsWanted(w, s.stale, s.redis, Prog(r.language, r.version, r.code),
                match r.timeout case Some(t) => t case None => w.second, r.stdin);
    PoolKeyUnique(r.language, r.version);
  }

  lemma MoveUnserved(w: World, s: State, id: nat, how: How, slot: nat)
    requires WorldOk(w) && Inv(w, s) && Ready(s, id, slot) && Unserved(s, id) && !Accepted(s.calls[id])
    ensures Unserved(Moved(w, s, id, how, slot), id)
  {
    hide Trim, PoolKeys, Touches, Quiet, Loses, Early, Keeps, Tame, Take, ProgOf, Accepted, Right;
    assert CallOk(w, s, id);
    SupportedExactly(s.calls[id]);
    if s.calls[id].phase.Looking? && ResultHit(s.redis, EarlyKey(w, s.calls[id].first)).Some? {
      FoundIsSupported(w, s, s.calls[id].first);
    }
  }

  lemma StepUnserved(w: World, s: State, e: Event, id: nat)
    requires WorldOk(w) && Inv(w, s) && Enabled(s, e) && id < |s.calls| && Unserved(s, id) && !Accepted(s.calls[id])
    ensures id < |Step(w, s, e).calls| && Unserved(Step(w, s, e), id)
  {
    if e.Act? && e.id == id {
      MoveUnserved(w, s, id, e.how, e.slot);
    } else if e != Cancel(id) {
      Interference.StepLeaves(w, s, e, id);
    }
  }

  /** Neither `execute` nor `execute_batch` goes on with these requests. */
  predicate RefusedCall(c: Call) {
    !(if c.kind.Batch? then BatchSupported(Requests(c)) else Supported(c.first))
  }

  /**
   * In every run, a call whose language is not supported, or a batch of an interpreted language whose later
   * requests name another language or version, never has a container and ends with an error.
   */
  lemma {:induction false} RefusedErrs(w: World, trace: seq<State>, events: seq<Event>, i: nat, id: nat)
    requires WorldOk(w) && Run(w, trace, events) && i < |trace| && id < |trace[i].calls|
    requires RefusedCall(trace[i].calls[id])
    ensures HeldOf(trace[i], id) == []
    ensures trace[i].calls[id].phase.Done? ==> trace[i].calls[id].phase == Done(Err)
    ensures Unserved(trace[i], id)
  {
    hide Step, Inv, WorldOk, Unserved, Enabled, RefusedCall, Accepted;
    assert i > 0;
    var s, e := trace[i - 1], events[i - 1];
    assert trace[i - 1 + 1] == Step(w, s, e);
    Reachability.RunKeeps(w, trace, events, i - 1);
    if id < |s.calls| {
      StepSame(w, s, e, id);
      RefusedStays(s.calls[id], trace[i].calls[id]);
      RefusedErrs(w, trace, events, i - 1, id);
      StepUnserved(w, s, e, id);
    } else {
      SpawnUnserved(w, s, e, id);
    }
    UnservedIs(trace[i], id);
  }

  lemma UnservedIs(s: State, id: nat)
    requires id < |s.calls| && Unserved(s, id)
    ensures HeldOf(s, id) == [] && (s.calls[id].phase.Done? ==> s.calls[id].phase == Done(Err))
  {
  }

  lemma RefusedStays(c: Call, c': Call)
    requires SameCall(c, c')
    ensures RefusedCall(c) <==> RefusedCall(c')
    ensures RefusedCall(c) ==> !Accepted(c)
  {
    hide Trim;
    SupportedExactly(c);
  }

  lemma SpawnUnserved(w: World, s: State, e: Event, id: nat)
    requires Inv(w, s) && Enabled(s, e) && |s.calls| <= id < |Step(w, s, e).calls|
    ensures Unserved(Step(w, s, e), id)
  {
    hide Trim, PoolKeys, Loses, Early, Keeps, Tame, Ready;
  }

  // ---------------------------------------------------------------- handled exits

  lemma {:induction false} FinishingStays(w: World, trace: seq<State>, events: seq<Event>, k: nat, i: nat, id: nat)
    requires WorldOk(w) && Run(w, trace, events) && k <= i < |trace| && id < |trace[k].calls|
    requires trace[k].calls[id].phase.Finishing?
    ensures id < |trace[i].calls| && (trace[i].calls[id].phase.Finishing? || trace[i].calls[id].phase.Done?)
  {
    hide Inv, WorldOk, Step, Enabled;
    if k < i {
      FinishingStays(w, trace, events, k, i - 1, id);
      Reachability.RunKeeps(w, trace, events, i - 1);
      assert trace[i - 1 + 1] == Step(w, trace[i - 1], events[i - 1]);
      StepFinishes(w, trace[i - 1], events[i - 1], id);
    }
  }

  lemma StepFinishes(w: World, s: State, e: Event, id: nat)
    requires WorldOk(w) && Inv(w, s) && Enabled(s, e) && id < |s.calls|
    requires s.calls[id].phase.Finishing? || s.calls[id].phase.Done?
    ensures id < |Step(w, s, e).calls|
    ensures Step(w, s, e).calls[id].phase.Finishing? || Step(w, s, e).calls[id].phase.Done?
  {
    hide Trim, PoolKeys, Touches, Quiet, Loses, Early, Keeps, Tame, Take;
    if !Interference.Of(e, id) {
      Interference.StepLeaves(w, s, e, id);
    }
  }

  /** A lost container was lost in a step of the call that held it, which was not handing its containers back. */
  lemma {:induction false} LostIn(w: World, trace: seq<State>, events: seq<Event>, i: nat, box: nat)
    returns (m: nat, id: nat)
    requires Run(w, trace, events) && i < |trace| && box in trace[i].cu.lost
    ensures m < i && box in HeldOf(trace[m], id) && Interference.Of(events[m], id) && id < |trace[m].calls|
    ensures events[m].Act? ==> !trace[m].calls[id].phase.Finishing?
    ensures id < |trace[m + 1].calls| && trace[m + 1].calls[id].phase == Done(Err)
  {
    assert i > 0;
    var s, e := trace[i - 1], events[i - 1];
    assert trace[i - 1 + 1] == Step(w, s, e);
    if box in s.cu.lost {
      m, id := LostIn(w, trace, events, i - 1, box);
    } else {
      Theorems.LostWhen(w, s, e);
      m, id := i - 1, e.id;
    }
  }

  /**
   * A call that comes to hand its containers back, be it with its results or after a failure that the code
   * handles, and is not cancelled then: every container it ever held is back in the pool when it is done,
   * or is or was another call's since.
   */
  lemma HandledReturnsAll(w: World, trace: seq<State>, events: seq<Event>, k: nat, i: nat, j: nat, id: nat, box: nat)
    requires WorldOk(w) && Run(w, trace, events) && k < i < |trace| && j < i && id < |trace[k].calls|
    requires trace[k].calls[id].phase.Finishing? && (forall m :: k <= m < i ==> events[m] != Cancel(id))
    requires id < |trace[i].calls| && trace[i].calls[id].phase.Done? && box in HeldOf(trace[j], id)
    ensures Theorems.Elsewhere(w, trace[i], id, box) || Theorems.LostElsewhere(trace, i, id, box)
  {
    var cu := trace[i].cu;
    Theorems.HeldHasHome(w, trace, events, j, id, box);
    Theorems.DoneHoldsNone(w, trace, events, i, id);
    Reachability.RunCustody(w, trace, events, i);
    Theorems.PlaceIsReal(cu, w.home, box);
    if box in cu.lost {
      var m, other := LostIn(w, trace, events, i, box);
      if other == id {
        NotLostBy(w, trace, events, k, m, id);
      }
      Theorems.DoneForEver(w, trace, events, m + 1, i, other);
      assert Theorems.LostAt(trace, i, m, other, box);
    }
  }

  lemma NotLostBy(w: World, trace: seq<State>, events: seq<Event>, k: nat, m: nat, id: nat)
    requires WorldOk(w) && Run(w, trace, events) && k < |trace| && m < |events| && id < |trace[k].calls|
    requires trace[k].calls[id].phase.Finishing? && (k <= m ==> events[m] != Cancel(id))
    requires Interference.Of(events[m], id) && id < |trace[m].calls| && id < |trace[m + 1].calls|
    requires events[m].Act? ==> !trace[m].calls[id].phase.Finishing?
    ensures trace[m + 1].calls[id].phase != Done(Err)
  {
    hide Inv, Step;
    if m < k {
      if trace[m + 1].calls[id].phase.Done? {
        Theorems.DoneForEver(w, trace, events, m + 1, k, id);
      }
    } else {
      FinishingStays(w, trace, events, k, m, id);
    }
  }
}
