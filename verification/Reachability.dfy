/**
 * Every event keeps the invariant, so every state of every run satisfies it.
 */
module Reachability {
  import opened Options
  import opened Text
  import opened Platform
  import opened Keys
  import opened Store
  import opened Custody
  import opened Engine
  import opened Invariants
  import opened Moves
  import opened Contents

  lemma KnowsBefore(w: World, s: State, id: nat)
    requires Inv(w, s) && id < |s.calls|
    ensures Before(w, s, id) && KnownBefore(w, s, id)
  {
    assert CallOk(w, s, id);
  }

  /** What the lookups of the next move may find. */
  predicate LookupsOk(w: World, s: State, id: nat, slot: nat)
    requires id < |s.calls|
  {
    var c := s.calls[id];
    EarlyOk(w, s, c) && LookupOk(w, s, c, 0) && LookupOk(w, s, c, |c.results| + slot) && ArtifactOk(w, s, ProgOf(c))
  }

  lemma LookupsGood(w: World, s: State, id: nat, slot: nat)
    requires WorldOk(w) && StoreOk(w, s) && id < |s.calls|
    ensures LookupsOk(w, s, id, slot)
  {
    StoreGives(w, s, s.calls[id], 0);
    StoreGives(w, s, s.calls[id], |s.calls[id].results| + slot);
  }

  lemma ChunkKnown(w: World, s: State, id: nat, slots: seq<Slot>, how: How, slot: nat)
    requires KnownBefore(w, s, id) && Ready(s, id, slot) && s.calls[id].phase == Chunk(slots)
    requires Local(w) && Complains(w) && LookupsOk(w, s, id, slot)
    ensures Known(w, Moved(w, s, id, how, slot), id)
  {
    if AllFinished(slots) {
      JoinsKnown(w, s, id, slots);
    } else {
      SlotsKnown(w, s, id, slots, slot, how);
    }
  }

  lemma FillsByGrowing(w: World, s: State, id: nat, left: nat, s': State)
    requires KnownBefore(w, s, id) && Has(s, id, 0) && s.calls[id].phase == Filling(left + 1)
    requires s' == Grows(s, id, left)
    ensures Known(w, s', id)
  {
    GrowsKnown(w, s, id, left);
  }

  lemma FillsByBeginning(w: World, s: State, id: nat, s': State)
    requires KnownBefore(w, s, id) && Has(s, id, 0) && s.calls[id].phase == Filling(0)
    requires s' == Begins(s, id)
    ensures Known(w, s', id)
  {
    BeginsKnown(w, s, id);
  }

  /** Up to the first lookup of a result. */
  lemma LoadingMoveKnown(w: World, s: State, id: nat, how: How, slot: nat)
    requires ReadsSource(w) && KnownBefore(w, s, id) && Ready(s, id, slot) && LookupsOk(w, s, id, slot)
    requires !AfterLoad(s.calls[id].phase) && !s.calls[id].phase.Finishing?
    ensures Known(w, Moved(w, s, id, how, slot), id)
  {
    var ph := s.calls[id].phase;
    if ph.Looking? {
      LooksKnown(w, s, id, how);
    } else if ph.Waiting? {
      WaitsKnown(w, s, id);
    } else if ph.Admitted? {
      StartsKnown(w, s, id);
    } else if ph.Artifact? {
      ConsultsKnown(w, s, id, how);
    } else if ph.Uploading? {
      UploadsKnown(w, s, id, ph.binary, how);
    } else if ph.Compiling? {
      CompilesKnown(w, s, id, how);
    } else {
      ArchivesKnown(w, s, id, how);
    }
  }

  /** From there to the decision about the first result. */
  lemma FirstMoveKnown(w: World, s: State, id: nat, how: How, slot: nat)
    requires KnownBefore(w, s, id) && Ready(s, id, slot)
    requires Local(w) && Complains(w) && LookupsOk(w, s, id, slot)
    requires var ph := s.calls[id].phase; ph.Lookup? || ph.Writing? || ph.Running? || ph.Storing? || ph.Deciding?
    ensures Known(w, Moved(w, s, id, how, slot), id)
  {
    var ph := s.calls[id].phase;
    if ph.Lookup? {
      LooksUpKnown(w, s, id, how);
    } else if ph.Writing? {
      WritesKnown(w, s, id, how);
    } else if ph.Running? {
      RunsFirstKnown(w, s, id, how);
    } else if ph.Storing? {
      StoresKnown(w, s, id, ph.v, how);
    } else {
      DecidesKnown(w, s, id, ph.v);
    }
  }

  lemma FillsKnown(w: World, s: State, id: nat, left: nat)
    requires KnownBefore(w, s, id) && Has(s, id, 0) && s.calls[id].phase == Filling(left)
    ensures Known(w, Fills(s, id, left), id)
  {
    hide Trim, PoolKeys, OneDocument, FreshBuild;
    if left > 0 {
      FillsByGrowing(w, s, id, left - 1, Fills(s, id, left));
    } else {
      FillsByBeginning(w, s, id, Fills(s, id, left));
    }
  }

  /** The chunk loop, and the end. */
  lemma LoopMoveKnown(w: World, s: State, id: nat, how: How, slot: nat)
    requires KnownBefore(w, s, id) && Ready(s, id, slot)
    requires Local(w) && Complains(w) && LookupsOk(w, s, id, slot)
    requires var ph := s.calls[id].phase; ph.Sizing? || Sized(ph) || ph.Finishing?
    ensures Known(w, Moved(w, s, id, how, slot), id)
  {
    var ph := s.calls[id].phase;
    if ph.Sizing? {
      SizesKnown(w, s, id);
    } else if ph.Filling? {
      FillsKnown(w, s, id, ph.left);
    } else if ph.Loading? {
      LoadsKnown(w, s, id, ph.left, how);
    } else if ph.Chunk? {
      ChunkKnown(w, s, id, ph.slots, how, slot);
    } else if ph.Draining? {
      DrainsKnown(w, s, id);
    } else {
      FinishesKnown(w, s, id, ph.out);
    }
  }

  lemma MovedKnown(w: World, s: State, id: nat, how: How, slot: nat)
    requires KnownBefore(w, s, id) && Ready(s, id, slot)
    requires Local(w) && ReadsSource(w) && Complains(w) && LookupsOk(w, s, id, slot)
    ensures Known(w, Moved(w, s, id, how, slot), id)
  {
    var ph := s.calls[id].phase;
    if ph.Sizing? || Sized(ph) || ph.Finishing? {
      LoopMoveKnown(w, s, id, how, slot);
    } else if AfterLoad(ph) {
      FirstMoveKnown(w, s, id, how, slot);
    } else {
      LoadingMoveKnown(w, s, id, how, slot);
    }
  }

  // ---------------------------------------------------------------- the store

  lemma StoreStays(w: World, s: State, s': State)
    requires StoreOk(w, s) && s'.redis == s.redis && s.stale <= s'.stale
    ensures StoreOk(w, s')
  {
    StoreGrows(w, s.stale, s'.stale, s.redis);
  }

  /** A call that holds a container is about a configured pair. */
  lemma HolderOfPair(w: World, s: State, id: nat)
    requires Before(w, s, id) && HeldOf(s, id) != []
    ensures OfPair(ProgOf(s.calls[id]))
  {
    var x := HeldOf(s, id)[0];
    assert x in HeldOf(s, id) && x in s.cu.place;
    var r := s.calls[id].first;
    TrimTwice(r.language);
    TrimTwice(r.version);
    TrimTwice(r.code);
  }

  /** Only a run that kept its limit and printed nothing on stderr gets into the store. */
  lemma ResultStored(w: World, s: State, id: nat, k: nat, v: Visible, how: How)
    requires StoreOk(w, s) && id < |s.calls| && OfPair(ProgOf(s.calls[id])) && k < Count(s.calls[id])
    requires Shows(w, OriginOf(w, s.calls[id], k), v)
    requires Clean(w, s.stale, ProgOf(s.calls[id])) && v.stderr.None? ==> v == Want(w, s.calls[id], k)
    ensures StoreOk(w, Stored(s, Key(w, s.calls[id], k), v, how))
  {
    var c := s.calls[id];
    if v.stderr.None? && how.Good? {
      ResultGood(w, s.stale, s.redis, ProgOf(c), LimitOf(w, c), Stdin(c, k), v);
    }
  }

  /** A build that is fetched and stored is the program's, if the container has it. */
  lemma ArchivesStore(w: World, s: State, id: nat, how: How)
    requires StoreOk(w, s) && KnownBefore(w, s, id) && Has(s, id, 1) && OfPair(ProgOf(s.calls[id]))
    requires s.calls[id].phase.Archiving? && BuiltHere(w, s, id)
    ensures StoreOk(w, Archives(w, s, id, how))
  {
    var p := ProgOf(s.calls[id]);
    var s' := Archives(w, s, id, how);
    var files := s.files[Box(s, id, 0)];
    if s'.redis != s.redis {
      ArtifactGood(w, s.stale, s.redis, p, files[Primary(p.lang)]);
    } else {
      StoreStays(w, s, s');
    }
  }

  lemma StoresStore(w: World, s: State, id: nat, v: Visible, how: How)
    requires StoreOk(w, s) && KnownBefore(w, s, id) && Has(s, id, 1) && OfPair(ProgOf(s.calls[id]))
    requires s.calls[id].phase == Storing(v) && FromRuns(w, s.calls[id])
    ensures StoreOk(w, Stores(w, s, id, v, how))
  {
    ResultStored(w, s, id, 0, v, how);
    StoreStays(w, Stored(s, Key(w, s.calls[id], 0), v, how), Stores(w, s, id, v, how));
  }

  lemma SlotWasRight(w: World, s: State, id: nat, slots: seq<Slot>, i: nat)
    requires KnownBefore(w, s, id) && HasSlot(s, id, slots, i) && Clean(w, s.stale, ProgOf(s.calls[id]))
    ensures SlotRight(slots[i], Want(w, s.calls[id], |s.calls[id].results| + i))
  {
    assert SlotsRight(w, s.calls[id], slots);
  }

  lemma RanStore(w: World, s: State, id: nat, slots: seq<Slot>, i: nat, how: How)
    requires StoreOk(w, s) && HasSlot(s, id, slots, i) && OfPair(ProgOf(s.calls[id])) && slots[i].Ran?
    requires Shows(w, OriginOf(w, s.calls[id], |s.calls[id].results| + i), slots[i].v)
    requires Clean(w, s.stale, ProgOf(s.calls[id])) ==>
      SlotRight(slots[i], Want(w, s.calls[id], |s.calls[id].results| + i))
    ensures StoreOk(w, Stored(s, Key(w, s.calls[id], |s.calls[id].results| + i), slots[i].v, how))
  {
    hide Trim, PoolKeys, OfPair, Shows, StoreGood, Stored, Key, Fresh, Clean;
    ResultStored(w, s, id, |s.calls[id].results| + i, slots[i].v, how);
  }

  lemma SlotsStore(w: World, s: State, id: nat, slots: seq<Slot>, i: nat, how: How)
    requires StoreOk(w, s) && HasSlot(s, id, slots, i)
    requires slots[i].Ran? ==> StoreOk(w, Stored(s, Key(w, s.calls[id], |s.calls[id].results| + i), slots[i].v, how))
    ensures StoreOk(w, Slots(w, s, id, slots, i, how))
  {
    var s' := Slots(w, s, id, slots, i, how);
    if slots[i].Ran? {
      StoreStays(w, Stored(s, Key(w, s.calls[id], |s.calls[id].results| + i), slots[i].v, how), s');
    } else {
      StoreStays(w, s, s');
    }
  }

  lemma MovedStore(w: World, s: State, id: nat, how: How, slot: nat)
    requires StoreOk(w, s) && Before(w, s, id) && KnownBefore(w, s, id) && Ready(s, id, slot)
    requires BuiltHere(w, s, id) && FromRuns(w, s.calls[id])
    ensures StoreOk(w, Moved(w, s, id, how, slot))
  {
    var ph := s.calls[id].phase;
    if HeldOf(s, id) != [] {
      HolderOfPair(w, s, id);
    }
    if ph.Archiving? {
      ArchivesStore(w, s, id, how);
    } else if ph.Storing? {
      StoresStore(w, s, id, ph.v, how);
    } else if ph.Chunk? && !AllFinished(ph.slots) {
      if ph.slots[slot].Ran? {
        if Clean(w, s.stale, ProgOf(s.calls[id])) {
          SlotWasRight(w, s, id, ph.slots, slot);
        }
        RanStore(w, s, id, ph.slots, slot, how);
      }
      SlotsStore(w, s, id, ph.slots, slot, how);
    } else {
      StoreStays(w, s, Moved(w, s, id, how, slot));
    }
  }

  // ---------------------------------------------------------------- builds being fetched, results being stored

  lemma CompilesBuilt(w: World, s: State, id: nat, how: How)
    requires ReadsSource(w) && Has(s, id, 1) && s.calls[id].phase.Compiling? && Compiled(ProgOf(s.calls[id]).lang)
    ensures BuiltHere(w, Compiles(w, s, id, how), id)
  {
  }

  /** Only the compiler's move leads to where a build is fetched. */
  lemma BuiltByCompiling(w: World, s: State, id: nat, how: How, slot: nat)
    requires Ready(s, id, slot) && !s.calls[id].phase.Compiling?
    ensures !Moved(w, s, id, how, slot).calls[id].phase.Archiving?
  {
  }

  lemma MovedBuilt(w: World, s: State, id: nat, how: How, slot: nat)
    requires ReadsSource(w) && Before(w, s, id) && Ready(s, id, slot)
    ensures BuiltHere(w, Moved(w, s, id, how, slot), id)
  {
    if s.calls[id].phase.Compiling? {
      CompilesBuilt(w, s, id, how);
    } else {
      BuiltByCompiling(w, s, id, how, slot);
    }
  }

  lemma RunsFirstFromRuns(w: World, s: State, id: nat, how: How)
    requires Has(s, id, 1)
    ensures FromRuns(w, RunsFirst(w, s, id, how).calls[id])
  {
    var c, files := s.calls[id], s.files[Box(s, id, 0)];
    assert Output(w, ProgOf(c), c.runnable, LimitOf(w, c), Stdin(c, 0), files) == RunOf(w, c, 0, files);
  }

  lemma OneSlotFromRuns(w: World, c: Call, slots: seq<Slot>, i: nat, x: Slot)
    requires FromRuns(w, c) && c.phase == Chunk(slots) && i < |slots| && |c.results| + |slots| <= Count(c)
    requires x.Ran? ==> Shows(w, OriginOf(w, c, |c.results| + i), x.v)
    ensures FromRuns(w, c.(phase := Chunk(slots[i := x])))
  {
    var slots' := slots[i := x];
    forall j | 0 <= j < |slots'| && slots'[j].Ran?
      ensures |c.results| + j < Count(c) && Shows(w, OriginOf(w, c, |c.results| + j), slots'[j].v)
    {
    }
  }

  /** What a slot shows after its move is what the program showed. */
  lemma SlotShows(w: World, s: State, id: nat, slots: seq<Slot>, i: nat, how: How)
    requires HasSlot(s, id, slots, i) && SlotAfter(w, s, id, slots, i, how).Ran?
    ensures var c := s.calls[id];
      Shows(w, OriginOf(w, c, |c.results| + i), SlotAfter(w, s, id, slots, i, how).v)
  {
    var c, x := s.calls[id], SlotAfter(w, s, id, slots, i, how);
    var files := s.files[Box(s, id, BoxOf(s, id, i))];
    assert Output(w, ProgOf(c), c.runnable, LimitOf(w, c), Stdin(c, |c.results| + i), files) == Some(x.v);
  }

  lemma SlotsFromRuns(w: World, s: State, id: nat, slots: seq<Slot>, i: nat, how: How)
    requires HasSlot(s, id, slots, i) && FromRuns(w, s.calls[id])
    ensures FromRuns(w, Slots(w, s, id, slots, i, how).calls[id])
  {
    var x := SlotAfter(w, s, id, slots, i, how);
    if x.Ran? {
      SlotShows(w, s, id, slots, i, how);
    }
    OneSlotFromRuns(w, s.calls[id], slots, i, x);
  }

  /** Nothing else leads to where a result is stored, or has run. */
  lemma FromRunsOnly(w: World, s: State, id: nat, how: How, slot: nat)
    requires Ready(s, id, slot) && !s.calls[id].phase.Running? && !s.calls[id].phase.Chunk?
    ensures FromRuns(w, Moved(w, s, id, how, slot).calls[id])
  {
    var ph := Moved(w, s, id, how, slot).calls[id].phase;
    assert Tame(ph) || (!ph.Storing? && !ph.Chunk?);
  }

  lemma MovedFromRuns(w: World, s: State, id: nat, how: How, slot: nat)
    requires Ready(s, id, slot) && FromRuns(w, s.calls[id])
    ensures FromRuns(w, Moved(w, s, id, how, slot).calls[id])
  {
    var ph := s.calls[id].phase;
    if ph.Running? {
      RunsFirstFromRuns(w, s, id, how);
    } else if ph.Chunk? && !AllFinished(ph.slots) {
      SlotsFromRuns(w, s, id, ph.slots, slot, how);
    } else if !ph.Chunk? {
      FromRunsOnly(w, s, id, how, slot);
    }
  }

  // ---------------------------------------------------------------- builds that fail

  /** No result of a failing build is in the cache. */
  lemma NoneOfFailing(w: World, s: State, c: Call)
    requires Digests(w) && StoreOk(w, s) && Mute(w, c) && Clean(w, s.stale, ProgOf(c))
    ensures ResultHit(s.redis, Key(w, c, 0)).None?
  {
    if ResultHit(s.redis, Key(w, c, 0)).Some? {
      HitIsWanted(w, s.stale, s.redis, ProgOf(c), LimitOf(w, c), Stdin(c, 0));
    }
  }

  lemma CompilesUnreported(w: World, s: State, id: nat, how: How)
    requires Has(s, id, 1) && s.calls[id].kind.Batch?
    ensures !Reported(Compiles(w, s, id, how).calls[id].phase)
  {
  }

  lemma FinishesUnreported(s: State, id: nat, out: Outcome)
    requires Has(s, id, 0) && s.calls[id].phase == Finishing(out) && !out.Ok?
    ensures !Reported(Finishes(s, id, out).calls[id].phase)
  {
  }

  lemma EntersUnreported(s: State, id: nat)
    requires id < |s.calls|
    ensures s.cu.permits > 0 ==> !Reported(Waits(s, id).calls[id].phase)
    ensures Has(s, id, 0) ==> !Reported(Starts(s, id).calls[id].phase)
  {
  }

  lemma ArtifactUnreported(w: World, s: State, id: nat, how: How, b: string)
    requires Has(s, id, 1)
    ensures !Reported(Consults(w, s, id, how).calls[id].phase) && !Reported(Uploads(w, s, id, b, how).calls[id].phase)
  {
  }

  /** Only two moves give a batch a result for its first request. */
  lemma ReportedBy(w: World, s: State, id: nat, how: How, slot: nat)
    requires Ready(s, id, slot) && s.calls[id].kind.Batch? && !Reported(s.calls[id].phase)
    requires !s.calls[id].phase.Looking? && !s.calls[id].phase.Running? && !s.calls[id].phase.Lookup?
    requires s.calls[id].phase.Finishing? ==> !s.calls[id].phase.out.Ok?
    ensures !Reported(Moved(w, s, id, how, slot).calls[id].phase)
  {
    var ph := s.calls[id].phase;
    if ph.Compiling? {
      CompilesUnreported(w, s, id, how);
    } else if ph.Finishing? {
      FinishesUnreported(s, id, ph.out);
    } else if ph.Waiting? || ph.Admitted? {
      EntersUnreported(s, id);
    } else if ph.Artifact? {
      ArtifactUnreported(w, s, id, how, "");
    } else if ph.Uploading? {
      ArtifactUnreported(w, s, id, how, ph.binary);
    }
  }

  lemma LookupUnreported(w: World, s: State, id: nat, how: How)
    requires Digests(w) && StoreOk(w, s) && Has(s, id, 1)
    requires Mute(w, s.calls[id]) && Clean(w, s.stale, ProgOf(s.calls[id]))
    ensures !Reported(LooksUp(w, s, id, how).calls[id].phase)
  {
    NoneOfFailing(w, s, s.calls[id]);
  }

  lemma RunsFirstUnreported(w: World, s: State, id: nat, how: How)
    requires Has(s, id, 1) && s.calls[id].first.stdin.None? && !s.calls[id].runnable
    ensures !Reported(RunsFirst(w, s, id, how).calls[id].phase)
  {
    assert RunOf(w, s.calls[id], 0, s.files[Box(s, id, 0)]).None?;
  }

  lemma MuteUnreported(w: World, s: State, id: nat, how: How, slot: nat)
    requires WorldOk(w) && KnownBefore(w, s, id) && Ready(s, id, slot) && StoreOk(w, s)
    requires Mute(w, s.calls[id]) && Clean(w, s.stale, ProgOf(s.calls[id])) && !Reported(s.calls[id].phase)
    ensures !Reported(Moved(w, s, id, how, slot).calls[id].phase)
  {
    var c := s.calls[id];
    if c.phase.Lookup? {
      LookupUnreported(w, s, id, how);
    } else if c.phase.Running? {
      RunsFirstUnreported(w, s, id, how);
    } else {
      ReportedBy(w, s, id, how, slot);
    }
  }

  lemma MovedUnreported(w: World, s: State, id: nat, how: How, slot: nat)
    requires WorldOk(w) && KnownBefore(w, s, id) && Ready(s, id, slot) && StoreOk(w, s)
    requires Unreported(w, s.stale, s.calls[id])
    ensures Unreported(w, Moved(w, s, id, how, slot).stale, Moved(w, s, id, how, slot).calls[id])
  {
    var c, s' := s.calls[id], Moved(w, s, id, how, slot);
    assert Touches(s, s', id);
    if Mute(w, c) && Clean(w, s'.stale, ProgOf(c)) {
      MuteUnreported(w, s, id, how, slot);
    }
  }

  // ---------------------------------------------------------------- stale programs

  /** A container may be unloaded only if the batch kept it so. */
  lemma StaleSkips(w: World, s: State, id: nat, slots: seq<Slot>, i: nat, how: How)
    requires KnownBefore(w, s, id) && HasSlot(s, id, slots, i) && RunsStale(s, id, slots, i, how)
    ensures Skipper(s.calls[id], ProgOf(s.calls[id]))
  {
  }

  /** A program becomes stale only by running a request of a chunk. */
  lemma StaleBySlot(w: World, s: State, id: nat, how: How, slot: nat)
    requires Ready(s, id, slot) && Moved(w, s, id, how, slot).stale != s.stale
    ensures var ph := s.calls[id].phase;
      ph.Chunk? && HasSlot(s, id, ph.slots, slot) && RunsStale(s, id, ph.slots, slot, how)
  {
  }

  lemma MovedStale(w: World, s: State, id: nat, how: How, slot: nat)
    requires StaleOk(s) && KnownBefore(w, s, id) && Ready(s, id, slot)
    ensures StaleOk(Moved(w, s, id, how, slot))
  {
    var s' := Moved(w, s, id, how, slot);
    if s'.stale == s.stale {
      SkippersStay(s, s');
    } else {
      StaleBySlot(w, s, id, how, slot);
      StaleSkips(w, s, id, s.calls[id].phase.slots, slot, how);
      NewlyStale(s, s', id);
    }
  }

  lemma NewlyStale(s: State, s': State, id: nat)
    requires StaleOk(s) && Touches(s, s', id) && Skipper(s.calls[id], ProgOf(s.calls[id]))
    ensures StaleOk(s')
  {
    SkippersStay(s, s'.(stale := s.stale));
    var p := ProgOf(s.calls[id]);
    assert Skipper(s'.calls[id], p);
    forall q | q in s'.stale ensures exists j :: 0 <= j < |s'.calls| && Skipper(s'.calls[j], q) {
      assert q in s.stale || q == p;
    }
  }

  // ---------------------------------------------------------------- every event

  lemma ActKeeps(w: World, s: State, id: nat, how: How, slot: nat)
    requires WorldOk(w) && Inv(w, s) && Ready(s, id, slot)
    ensures Inv(w, Moved(w, s, id, how, slot))
  {
    var s' := Moved(w, s, id, how, slot);
    KnowsBefore(w, s, id);
    assert CallOk(w, s, id);
    LookupsGood(w, s, id, slot);
    MovedCustody(w, s, id, how, slot);
    MovedShape(w, s, id, how, slot);
    MovedKnown(w, s, id, how, slot);
    MovedStore(w, s, id, how, slot);
    MovedStale(w, s, id, how, slot);
    MovedBuilt(w, s, id, how, slot);
    MovedFromRuns(w, s, id, how, slot);
    MovedUnreported(w, s, id, how, slot);
    ActsTogether(w, s, s', id);
  }

  lemma HoldersStay(w: World, s: State, s': State, id: nat)
    requires HoldersExist(s) && |s'.calls| == |s.calls| && id < |s.calls| && CustodyStep(w, s.cu, s'.cu, id)
    ensures HoldersExist(s')
  {
    forall j | j in s'.cu.held ensures j < |s'.calls| {
      assert j != id ==> SameFor(s.cu, s'.cu, j);
    }
  }

  /** Others keep what they had, the call that moves has what it needs. */
  lemma ActsTogether(w: World, s: State, s': State, id: nat)
    requires Inv(w, s) && id < |s.calls| && Touches(s, s', id)
    requires CustodyStep(w, s.cu, s'.cu, id) && Shape(w, s', id) && Known(w, s', id) && StoreOk(w, s') && StaleOk(s')
    requires BuiltHere(w, s', id) && FromRuns(w, s'.calls[id]) && Unreported(w, s'.stale, s'.calls[id])
    ensures Inv(w, s')
  {
    HoldersStay(w, s, s', id);
    forall j | 0 <= j < |s'.calls| ensures CallOk(w, s', j) {
      if j != id {
        OtherOk(w, s, s', id, j);
      }
    }
  }

  lemma DropKeeps(w: World, s: State, id: nat)
    requires Inv(w, s) && id < |s.calls| && id in s.cu.held && !s.calls[id].phase.Done?
    ensures Inv(w, Drop(s, id))
  {
    hide Trim, PoolKeys;
    var s' := Drop(s, id);
    KnowsBefore(w, s, id);
    AbandonStep(w, s, id);
    DropShape(w, s, id);
    DropKnown(w, s, id);
    StoreStays(w, s, s');
    SkippersStay(s, s');
    ActsTogether(w, s, s', id);
  }

  /** A call that still waits for its permit is cancelled. */
  lemma QuitKeeps(w: World, s: State, id: nat)
    requires Inv(w, s) && id < |s.calls| && id !in s.cu.held && !s.calls[id].phase.Done?
    ensures Inv(w, To(s, id, Done(Err)))
  {
    var s' := To(s, id, Done(Err));
    KnowsBefore(w, s, id);
    SteadyKnown(w, s, s', id);
    StoreStays(w, s, s');
    SkippersStay(s, s');
    ActsTogether(w, s, s', id);
  }

  lemma CancelKeeps(w: World, s: State, id: nat)
    requires Inv(w, s) && Enabled(s, Cancel(id))
    ensures Inv(w, Step(w, s, Cancel(id)))
  {
    if id in s.cu.held {
      DropKeeps(w, s, id);
    } else {
      QuitKeeps(w, s, id);
    }
  }

  lemma SpawnedOk(w: World, s: State, e: Event)
    requires Inv(w, s) && e.Spawn? && Enabled(s, e)
    ensures CallOk(w, Step(w, s, e), |s.calls|)
  {
    var n := |s.calls|;
    assert n !in s.cu.held && n !in s.cu.par;
    assert Step(w, s, e).calls[n] == NewCall(e.kind, e.first, e.rest);
  }

  /** Who kept a container unloaded is still there. */
  lemma SkippersStay(s: State, s': State)
    requires StaleOk(s) && s'.stale == s.stale && |s'.calls| >= |s.calls|
    requires forall i :: 0 <= i < |s.calls| ==> SameCall(s.calls[i], s'.calls[i])
    ensures StaleOk(s')
  {
    forall p | p in s'.stale ensures exists j :: 0 <= j < |s'.calls| && Skipper(s'.calls[j], p) {
      var j :| 0 <= j < |s.calls| && Skipper(s.calls[j], p);
      assert Skipper(s'.calls[j], p);
    }
  }

  lemma SpawnKeeps(w: World, s: State, e: Event)
    requires Inv(w, s) && e.Spawn? && Enabled(s, e)
    ensures Inv(w, Step(w, s, e))
  {
    var s' := Step(w, s, e);
    SpawnedOk(w, s, e);
    forall j | 0 <= j < |s'.calls| ensures CallOk(w, s', j) {
      if j < |s.calls| {
        assert CallOk(w, s, j) && s'.calls[j] == s.calls[j];
      }
    }
    SkippersStay(s, s');
  }

  lemma EvictKeeps(w: World, s: State, key: string)
    requires Inv(w, s)
    ensures Inv(w, Step(w, s, Evict(key)))
  {
    var s' := Step(w, s, Evict(key));
    forall j | 0 <= j < |s'.calls| ensures CallOk(w, s', j) {
      assert CallOk(w, s, j);
    }
  }

  lemma StepKeeps(w: World, s: State, e: Event)
    requires WorldOk(w) && Inv(w, s) && Enabled(s, e)
    ensures Inv(w, Step(w, s, e))
  {
    match e
    case Spawn(kind, first, rest) => SpawnKeeps(w, s, e);
    case Act(id, how, slot) => ActKeeps(w, s, id, how, slot);
    case Cancel(id) => CancelKeeps(w, s, id);
    case Evict(key) => EvictKeeps(w, s, key);
  }

  lemma InitHolds(w: World, s: State)
    requires Init(w, s)
    ensures Inv(w, s)
  {
  }

  /** Every state of every run satisfies the invariant. */
  lemma {:induction false} RunKeeps(w: World, trace: seq<State>, events: seq<Event>, i: nat)
    requires WorldOk(w) && Run(w, trace, events) && i < |trace|
    ensures Inv(w, trace[i])
  {
    if i == 0 {
      InitHolds(w, trace[0]);
    } else {
      RunKeeps(w, trace, events, i - 1);
      StepKeeps(w, trace[i - 1], events[i - 1]);
      assert trace[i - 1 + 1] == Step(w, trace[i - 1], events[i - 1]);
    }
  }

  lemma RunCustody(w: World, trace: seq<State>, events: seq<Event>, i: nat)
    requires WorldOk(w) && Run(w, trace, events) && i < |trace|
    ensures CustodyOk(w, trace[i].cu)
  {
    RunKeeps(w, trace, events, i);
  }

  lemma RunStore(w: World, trace: seq<State>, events: seq<Event>, i: nat)
    requires WorldOk(w) && Run(w, trace, events) && i < |trace|
    ensures StoreOk(w, trace[i])
  {
    RunKeeps(w, trace, events, i);
  }
}
