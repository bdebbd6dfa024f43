/**
 * A move of one call keeps the custody of containers in order and touches nothing of any other
 * call in flight.
 */
module Moves {
  import opened Options
  import opened Text
  import opened Platform
  import opened Keys
  import opened Store
  import opened Custody
  import opened Engine
  import opened Invariants

  predicate SameFor(cu: Custody, cu': Custody, j: nat) {
    && (j in cu.held <==> j in cu'.held) && (j in cu.held && j in cu'.held ==> cu.held[j] == cu'.held[j])
    && (j in cu.par <==> j in cu'.par) && (j in cu.par && j in cu'.par ==> cu.par[j] == cu'.par[j])
  }

  /** All that happens to the custody is the call's own doing, and leaves it in order. */
  ghost predicate CustodyStep(w: World, cu: Custody, cu': Custody, id: nat) {
    CustodyOk(w, cu') && forall j :: j != id ==> SameFor(cu, cu', j)
  }

  // ---------------------------------------------------------------- custody

  lemma EnterStep(w: World, s: State, id: nat)
    requires CustodyOk(w, s.cu) && s.cu.permits > 0 && id !in s.cu.held
    ensures CustodyStep(w, s.cu, Enter(s.cu, id), id)
  {
    EnterPlaced(s.cu, w.home, id);
    EnterBounded(s.cu, w.total, id);
  }

  lemma LeaveSame(cu: Custody, id: nat, j: nat)
    requires j != id
    ensures SameFor(cu, Leave(cu, id), j)
  {
  }

  lemma LeaveStep(w: World, s: State, id: nat)
    requires CustodyOk(w, s.cu) && id in s.cu.held && s.cu.held[id] == []
    ensures CustodyStep(w, s.cu, Leave(s.cu, id), id)
  {
    LeavePlaced(s.cu, w.home, id);
    LeaveBounded(s.cu, w.total, id);
    forall j: nat | j != id ensures SameFor(s.cu, Leave(s.cu, id), j) {
      LeaveSame(s.cu, id, j);
    }
  }

  lemma AbandonSame(cu: Custody, id: nat, j: nat)
    requires id in cu.held && j != id
    ensures SameFor(cu, Abandon(cu, id), j)
  {
  }

  lemma AbandonStep(w: World, s: State, id: nat)
    requires CustodyOk(w, s.cu) && id in s.cu.held
    ensures CustodyStep(w, s.cu, Abandon(s.cu, id), id)
  {
    AbandonPlaced(s.cu, w.home, id);
    AbandonBounded(s.cu, w.total, id);
    forall j: nat | j != id ensures SameFor(s.cu, Abandon(s.cu, id), j) {
      AbandonSame(s.cu, id, j);
    }
  }

  lemma QuietStep(w: World, s: State, s': State, id: nat)
    requires CustodyOk(w, s.cu) && Quiet(s, s', id)
    ensures CustodyStep(w, s.cu, s'.cu, id)
  {
    if id in s.cu.held {
      AbandonStep(w, s, id);
    }
  }

  lemma PopSame(cu: Custody, id: nat, key: string)
    requires id in cu.held
    ensures Pop(cu, id, key).pool.Keys == cu.pool.Keys
    ensures forall j :: j != id ==> SameFor(cu, Pop(cu, id, key), j)
  {
  }

  lemma PopStep(w: World, s: State, id: nat, key: string)
    requires CustodyOk(w, s.cu) && id in s.cu.held && |s.cu.held[id]| < Limit(s.cu, id)
    ensures CustodyStep(w, s.cu, Pop(s.cu, id, key), id)
  {
    PopPlaced(s.cu, w.home, id, key);
    PopBounded(s.cu, w.total, id, key);
    PopSame(s.cu, id, key);
  }

  lemma PushSame(cu: Custody, id: nat, key: string)
    requires id in cu.held && cu.held[id] != [] && key in cu.pool
    ensures Push(cu, id, key).pool.Keys == cu.pool.Keys
    ensures forall j :: j != id ==> SameFor(cu, Push(cu, id, key), j)
  {
  }

  lemma HeldHomePooled(w: World, cu: Custody, id: nat)
    requires CustodyOk(w, cu) && id in cu.held && cu.held[id] != [] && cu.held[id][0] in w.home
    ensures w.home[cu.held[id][0]] in cu.pool
  {
    assert cu.held[id][0] in cu.held[id];
  }

  lemma PushStep(w: World, s: State, id: nat, key: string)
    requires CustodyOk(w, s.cu) && id in s.cu.held && s.cu.held[id] != []
    requires s.cu.held[id][0] in w.home && w.home[s.cu.held[id][0]] == key
    ensures CustodyStep(w, s.cu, Push(s.cu, id, key), id)
  {
    HeldHomePooled(w, s.cu, id);
    PushPlaced(s.cu, w.home, id, key);
    PushBounded(s.cu, w.total, id, key);
    PushSame(s.cu, id, key);
  }

  lemma SizeStep(w: World, s: State, id: nat, wanted: nat)
    requires CustodyOk(w, s.cu) && id in s.cu.held && id !in s.cu.par && |s.cu.held[id]| <= 1
    ensures CustodyStep(w, s.cu, Size(s.cu, id, wanted), id)
  {
    SizeBounded(s.cu, w.total, id, wanted);
  }

  /** What a move has to start from: the parts of the invariant about the call that moves. */
  ghost predicate Before(w: World, s: State, id: nat) {
    && CustodyOk(w, s.cu)
    && id < |s.calls| && Shape(w, s, id)
  }

  lemma ReturnsStep(w: World, s: State, id: nat)
    requires Before(w, s, id) && Has(s, id, 1) && !s.calls[id].phase.Done?
    ensures CustodyStep(w, s.cu, Returns(s, id).cu, id)
  {
    assert s.cu.held[id][0] in HeldOf(s, id);
    PushStep(w, s, id, KeyOf(ProgOf(s.calls[id])));
  }

  lemma FillsStep(w: World, s: State, id: nat, left: nat)
    requires Before(w, s, id) && Has(s, id, 0) && s.calls[id].phase == Filling(left)
    ensures CustodyStep(w, s.cu, Fills(s, id, left).cu, id)
  {
    if left > 0 {
      PopStep(w, s, id, KeyOf(ProgOf(s.calls[id])));
    } else if Left(s.calls[id]) > 0 && s.cu.held[id] == [] {
      LeaveStep(w, s, id);
    }
  }

  lemma StartsStep(w: World, s: State, id: nat)
    requires Before(w, s, id) && Has(s, id, 0) && s.calls[id].phase.Admitted?
    ensures CustodyStep(w, s.cu, Starts(s, id).cu, id)
  {
    PopStep(w, s, id, KeyOf(ProgOf(s.calls[id])));
  }

  lemma MovedCustody(w: World, s: State, id: nat, how: How, slot: nat)
    requires Before(w, s, id) && Ready(s, id, slot)
    ensures CustodyStep(w, s.cu, Moved(w, s, id, how, slot).cu, id)
  {
    var ph := s.calls[id].phase;
    if ph.Waiting? {
      EnterStep(w, s, id);
    } else if ph.Admitted? {
      StartsStep(w, s, id);
    } else if ph.Sizing? {
      SizeStep(w, s, id, |s.calls[id].rest|);
    } else if ph.Filling? {
      FillsStep(w, s, id, ph.left);
    } else if ph.Draining? || ph.Finishing? {
      if s.cu.held[id] != [] {
        ReturnsStep(w, s, id);
      } else {
        LeaveStep(w, s, id);
      }
    } else {
      QuietStep(w, s, Moved(w, s, id, how, slot), id);
    }
  }

  // ---------------------------------------------------------------- the other calls

  lemma HoldersApart(held: map<nat, seq<nat>>, place: map<nat, Place>, h: seq<nat>, i: nat, j: nat)
    requires HeldPlaced(held, place) && i != j && (i in held ==> h == held[i]) && (i !in held ==> h == [])
    ensures forall x :: x in h ==> !(j in held && x in held[j])
  {
    forall x | x in h ensures !(j in held && x in held[j]) {
      assert place[x] == With(i);
    }
  }

  /** Exclusivity: no container is held by two calls. */
  lemma HeldApart(w: World, s: State, i: nat, j: nat)
    requires CustodyOk(w, s.cu) && i != j
    ensures forall x :: x in HeldOf(s, i) ==> x !in HeldOf(s, j)
  {
    HoldersApart(s.cu.held, s.cu.place, HeldOf(s, i), i, j);
  }

  lemma OtherFilled(w: World, s: State, s': State, id: nat, j: nat)
    requires CustodyOk(w, s.cu) && Touches(s, s', id) && SameFor(s.cu, s'.cu, j)
    requires j < |s.calls| && j != id && Shape(w, s, j) && Filled(w, s, j)
    ensures Shape(w, s', j) && Filled(w, s', j)
  {
    HeldApart(w, s, id, j);
    var c, h := s.calls[j], HeldOf(s, j);
    assert HeldOf(s', j) == h;
    forall i | 0 <= i < |h| && i < |c.ours| && c.ours[i] && Whole(w, ProgOf(c))
      ensures h[i] in s'.files && Loaded(w, ProgOf(c), s'.files[h[i]])
    {
      assert h[i] in h;
    }
  }

  lemma OtherBuilt(w: World, s: State, s': State, id: nat, j: nat)
    requires CustodyOk(w, s.cu) && Touches(s, s', id) && SameFor(s.cu, s'.cu, j)
    requires j < |s.calls| && j != id && BuiltHere(w, s, j)
    ensures BuiltHere(w, s', j)
  {
    HeldApart(w, s, id, j);
    assert HeldOf(s', j) == HeldOf(s, j);
    assert HeldOf(s, j) != [] ==> HeldOf(s, j)[0] in HeldOf(s, j);
  }

  /** Whatever one call does, what holds of another goes on holding. */
  lemma OtherOk(w: World, s: State, s': State, id: nat, j: nat)
    requires CustodyOk(w, s.cu) && Touches(s, s', id) && CustodyStep(w, s.cu, s'.cu, id)
    requires j < |s.calls| && j != id && CallOk(w, s, j)
    ensures CallOk(w, s', j)
  {
    OtherFilled(w, s, s', id, j);
    OtherBuilt(w, s, s', id, j);
  }

  // ---------------------------------------------------------------- the shape of the call that moves

  predicate Formed(w: World, s: State, id: nat) {
    id < |s.calls| && Shape(w, s, id)
  }

  /** The next phase of a call that keeps its containers agrees with what it had. */
  predicate Follows(c: Call, c': Call, h: seq<nat>) {
    var ph, ph' := c.phase, c'.phase;
    && SameCall(c, c') && |c'.ours| == |c.ours| && Counts(c', h)
    && HasPermit(ph) && HasPermit(ph') && !ph'.Admitted?
    && (HasOne(ph') ==> HasOne(ph)) && (Sized(ph') ==> Sized(ph) && c'.maxPar == c.maxPar)
    && (ph'.Artifact? || ph'.Uploading? || ph'.Compiling? || ph'.Archiving? ==> Compiled(ProgOf(c).lang))
    && (ph'.Writing? ==> !Compiled(ProgOf(c).lang))
    && (ph'.Deciding? || ph'.Sizing? ==> c.kind.Batch?)
  }

  lemma SteadyShape(w: World, s: State, s': State, id: nat)
    requires Formed(w, s, id) && Touches(s, s', id) && s'.cu == s.cu
    requires Follows(s.calls[id], s'.calls[id], HeldOf(s, id))
    ensures Shape(w, s', id)
  {
  }

  lemma DropShape(w: World, s: State, id: nat)
    requires Formed(w, s, id) && id in s.cu.held
    ensures Shape(w, Drop(s, id), id)
  {
  }

  lemma LooksShape(w: World, s: State, id: nat, how: How)
    requires Formed(w, s, id) && Ready(s, id, 0) && s.calls[id].phase.Looking?
    ensures Shape(w, Looks(w, s, id, how), id)
  {
  }

  lemma WaitsShape(w: World, s: State, id: nat)
    requires s.cu.par.Keys <= s.cu.held.Keys
    requires Formed(w, s, id) && Ready(s, id, 0) && s.calls[id].phase.Waiting?
    ensures Shape(w, Waits(s, id), id)
  {
  }

  /** What a call may take from the pool was made for its language and version. */
  predicate TakesOwn(w: World, s: State, id: nat) {
    id < |s.calls| && id in s.cu.held &&
    var cu := Pop(s.cu, id, KeyOf(ProgOf(s.calls[id])));
    cu.par == s.cu.par && (cu.held[id] == s.cu.held[id] || |cu.held[id]| == |s.cu.held[id]| + 1) &&
    forall x :: x in cu.held[id] ==> x in w.home && w.home[x] == KeyOf(ProgOf(s.calls[id]))
  }

  lemma PopTakesOwn(w: World, s: State, id: nat)
    requires Before(w, s, id) && id in s.cu.held
    ensures TakesOwn(w, s, id)
  {
    var key := KeyOf(ProgOf(s.calls[id]));
    if key in s.cu.pool && s.cu.pool[key] != [] {
      var top := s.cu.pool[key][|s.cu.pool[key]| - 1];
      assert top in s.cu.pool[key];
      assert Pop(s.cu, id, key).held[id] == HeldOf(s, id) + [top];
    }
  }

  lemma StartsShape(w: World, s: State, id: nat)
    requires TakesOwn(w, s, id)
    requires Formed(w, s, id) && Has(s, id, 0) && s.calls[id].phase.Admitted?
    ensures Shape(w, Starts(s, id), id)
  {
    var c := s.calls[id];
    var s' := Starts(s, id);
    var c' := s'.calls[id];
    if s'.cu == s.cu {
      assert c' == c.(phase := Finishing(Err));
      SteadyShape(w, s, s', id);
    } else {
      assert c'.phase.Artifact? || c'.phase.Lookup?;
      assert |c'.ours| == |HeldOf(s', id)|;
    }
  }

  lemma ConsultsShape(w: World, s: State, id: nat, how: How)
    requires Formed(w, s, id) && Has(s, id, 1) && s.calls[id].phase.Artifact?
    ensures Shape(w, Consults(w, s, id, how), id)
  {
    var s' := Consults(w, s, id, how);
    assert s'.calls[id] == s.calls[id].(phase := s'.calls[id].phase);
    assert Follows(s.calls[id], s'.calls[id], HeldOf(s, id));
    SteadyShape(w, s, s', id);
  }

  lemma UploadsShape(w: World, s: State, id: nat, b: string, how: How)
    requires Formed(w, s, id) && Has(s, id, 1) && s.calls[id].phase == Uploading(b)
    ensures Shape(w, Uploads(w, s, id, b, how), id)
  {
    if !how.Good? {
      DropShape(w, s, id);
    } else {
      SteadyShape(w, s, Uploads(w, s, id, b, how), id);
    }
  }

  lemma CompilesShape(w: World, s: State, id: nat, how: How)
    requires Formed(w, s, id) && Has(s, id, 1) && s.calls[id].phase.Compiling?
    ensures Shape(w, Compiles(w, s, id, how), id)
  {
    if !how.Good? {
      DropShape(w, s, id);
    } else {
      var c := s.calls[id];
      var s' := Compiles(w, s, id, how);
      var c' := s'.calls[id];
      assert s'.cu == s.cu && SameCall(c, c') && |c'.ours| == |c.ours|;
      assert Follows(c, c', HeldOf(s, id));
      SteadyShape(w, s, s', id);
    }
  }

  lemma ArchivesShape(w: World, s: State, id: nat, how: How)
    requires Formed(w, s, id) && Has(s, id, 1) && s.calls[id].phase.Archiving?
    ensures Shape(w, Archives(w, s, id, how), id)
  {
    var s' := Archives(w, s, id, how);
    if s'.cu == s.cu {
      SteadyShape(w, s, s', id);
    } else {
      DropShape(w, s, id);
    }
  }

  lemma LooksUpShape(w: World, s: State, id: nat, how: How)
    requires Formed(w, s, id) && Has(s, id, 1) && s.calls[id].phase.Lookup?
    ensures Shape(w, LooksUp(w, s, id, how), id)
  {
    SteadyShape(w, s, Misses(s, id), id);
    var hit := ResultHit(s.redis, Key(w, s.calls[id], 0));
    if hit.Some? {
      SteadyShape(w, s, Found(s, id, hit.value), id);
    }
  }

  lemma WritesShape(w: World, s: State, id: nat, how: How)
    requires Formed(w, s, id) && Has(s, id, 1) && s.calls[id].phase.Writing?
    ensures Shape(w, Writes(s, id, how), id)
  {
    if how.Hard? {
      DropShape(w, s, id);
    } else {
      SteadyShape(w, s, Writes(s, id, how), id);
    }
  }

  lemma RunsFirstShape(w: World, s: State, id: nat, how: How)
    requires Formed(w, s, id) && Has(s, id, 1) && s.calls[id].phase.Running?
    ensures Shape(w, RunsFirst(w, s, id, how), id)
  {
    var s' := RunsFirst(w, s, id, how);
    if s'.cu == s.cu {
      SteadyShape(w, s, s', id);
    } else {
      DropShape(w, s, id);
    }
  }

  lemma StoresShape(w: World, s: State, id: nat, v: Visible, how: How)
    requires Formed(w, s, id) && Has(s, id, 1) && s.calls[id].phase == Storing(v)
    ensures Shape(w, Stores(w, s, id, v, how), id)
  {
    SteadyShape(w, s, Stores(w, s, id, v, how), id);
  }

  lemma DecidesShape(w: World, s: State, id: nat, v: Visible)
    requires Formed(w, s, id) && Has(s, id, 1) && s.calls[id].phase == Deciding(v)
    ensures Shape(w, Decides(s, id, v), id)
  {
    var c := s.calls[id];
    var s' := Decides(s, id, v);
    var c' := s'.calls[id];
    assert c'.phase.Finishing? || c'.phase.Sizing?;
    assert Follows(c, c', HeldOf(s, id));
    SteadyShape(w, s, s', id);
  }

  lemma SizesShape(w: World, s: State, id: nat)
    requires Formed(w, s, id) && Has(s, id, 1) && s.calls[id].phase.Sizing?
    ensures Shape(w, Sizes(s, id), id)
  {
  }

  lemma GrowsShape(w: World, s: State, id: nat, left: nat)
    requires TakesOwn(w, s, id)
    requires Formed(w, s, id) && Has(s, id, 0) && s.calls[id].phase == Filling(left + 1)
    ensures Shape(w, Grows(s, id, left), id)
  {
    var s' := Grows(s, id, left);
    if s'.cu == s.cu {
      SteadyShape(w, s, s', id);
    }
  }

  lemma BeginsShape(w: World, s: State, id: nat)
    requires Formed(w, s, id) && Has(s, id, 0) && s.calls[id].phase == Filling(0)
    ensures Shape(w, Begins(s, id), id)
  {
    hide Trim, PoolKeys, Quiet, Touches, Early, Keeps, Tame, Loses;
    var s' := Begins(s, id);
    if s'.cu == s.cu {
      SteadyShape(w, s, s', id);
    }
  }

  lemma KeptShape(w: World, s: State, id: nat, left: nat, files: Files)
    requires Formed(w, s, id) && Has(s, id, 1) && s.calls[id].phase == Loading(left)
    ensures Shape(w, Kept(s, id, left, files), id)
  {
    SteadyShape(w, s, Kept(s, id, left, files), id);
  }

  lemma GetsShape(w: World, s: State, id: nat, left: nat, name: string, text: string)
    requires Formed(w, s, id) && Has(s, id, 1) && s.calls[id].phase == Loading(left)
    ensures Shape(w, Gets(s, id, left, name, text), id)
  {
    SteadyShape(w, s, Gets(s, id, left, name, text), id);
  }

  lemma LoadsShape(w: World, s: State, id: nat, left: nat, how: How)
    requires Formed(w, s, id) && Has(s, id, 1) && s.calls[id].phase == Loading(left)
    ensures Shape(w, Loads(w, s, id, left, how), id)
  {
    var p := ProgOf(s.calls[id]);
    DropShape(w, s, id);
    KeptShape(w, s, id, left, LeftFiles(s, id, how));
    if Compiled(p.lang) && ArtifactHit(s.redis, ArtifactKey(w, p)).Some? {
      GetsShape(w, s, id, left, Primary(p.lang), ArtifactHit(s.redis, ArtifactKey(w, p)).value);
    } else if !Compiled(p.lang) {
      GetsShape(w, s, id, left, SourceFile(p.lang), p.code);
    }
  }

  lemma SlotsShape(w: World, s: State, id: nat, slots: seq<Slot>, slot: nat, how: How)
    requires Formed(w, s, id) && HasSlot(s, id, slots, slot)
    ensures Shape(w, Slots(w, s, id, slots, slot, how), id)
  {
    SteadyShape(w, s, Slots(w, s, id, slots, slot, how), id);
  }

  lemma JoinsShape(w: World, s: State, id: nat, slots: seq<Slot>)
    requires Formed(w, s, id) && Has(s, id, 1) && s.calls[id].phase == Chunk(slots) && AllFinished(slots)
    ensures Shape(w, Joins(s, id, slots), id)
  {
    if Broken in slots {
      DropShape(w, s, id);
    } else {
      SteadyShape(w, s, Joins(s, id, slots), id);
    }
  }

  lemma ReturnsShape(w: World, s: State, id: nat)
    requires Formed(w, s, id) && Has(s, id, 1) && (s.calls[id].phase.Draining? || s.calls[id].phase.Finishing?)
    ensures Shape(w, Returns(s, id), id)
  {
    var h, s' := s.cu.held[id], Returns(s, id);
    assert HeldOf(s', id) == h[1..];
    forall x | x in h[1..] ensures x in w.home && w.home[x] == KeyOf(ProgOf(s.calls[id])) {
      assert x in HeldOf(s, id);
    }
  }

  lemma DrainsShape(w: World, s: State, id: nat)
    requires Formed(w, s, id) && Has(s, id, 0) && s.calls[id].phase.Draining?
    ensures Shape(w, Drains(s, id), id)
  {
    if s.cu.held[id] != [] {
      ReturnsShape(w, s, id);
    }
  }

  lemma FinishesShape(w: World, s: State, id: nat, out: Outcome)
    requires Formed(w, s, id) && Has(s, id, 0) && s.calls[id].phase == Finishing(out)
    ensures Shape(w, Finishes(s, id, out), id)
  {
    if s.cu.held[id] != [] {
      ReturnsShape(w, s, id);
    }
  }

  lemma FillsShape(w: World, s: State, id: nat, left: nat, s': State)
    requires Formed(w, s, id) && TakesOwn(w, s, id) && Has(s, id, 0) && s.calls[id].phase == Filling(left)
    requires s' == if left > 0 then Grows(s, id, left - 1) else Begins(s, id)
    ensures Shape(w, s', id)
  {
    if left > 0 {
      GrowsShape(w, s, id, left - 1);
    } else {
      BeginsShape(w, s, id);
    }
  }

  lemma LoopShape(w: World, s: State, id: nat, how: How, slot: nat)
    requires Formed(w, s, id) && TakesOwn(w, s, id) && Ready(s, id, slot)
    requires var ph := s.calls[id].phase; ph.Sizing? || Sized(ph) || ph.Finishing?
    ensures Shape(w, Moved(w, s, id, how, slot), id)
  {
    var ph := s.calls[id].phase;
    if ph.Sizing? {
      SizesShape(w, s, id);
    } else if ph.Filling? {
      FillsShape(w, s, id, ph.left, Moved(w, s, id, how, slot));
    } else if ph.Loading? {
      LoadsShape(w, s, id, ph.left, how);
    } else if ph.Chunk? {
      if AllFinished(ph.slots) { JoinsShape(w, s, id, ph.slots); } else { SlotsShape(w, s, id, ph.slots, slot, how); }
    } else if ph.Draining? {
      DrainsShape(w, s, id);
    } else {
      FinishesShape(w, s, id, ph.out);
    }
  }

  /** The moves before the permits are read. */
  lemma EarlyShape(w: World, s: State, id: nat, how: How, slot: nat)
    requires Formed(w, s, id) && Ready(s, id, slot) && (id in s.cu.held ==> TakesOwn(w, s, id))
    requires var ph := s.calls[id].phase; !ph.Waiting? && !ph.Sizing? && !Sized(ph) && !ph.Finishing?
    ensures Shape(w, Moved(w, s, id, how, slot), id)
  {
    match s.calls[id].phase
    case Looking => LooksShape(w, s, id, how);
    case Admitted => StartsShape(w, s, id);
    case Artifact => ConsultsShape(w, s, id, how);
    case Uploading(b) => UploadsShape(w, s, id, b, how);
    case Compiling => CompilesShape(w, s, id, how);
    case Archiving => ArchivesShape(w, s, id, how);
    case Lookup => LooksUpShape(w, s, id, how);
    case Writing => WritesShape(w, s, id, how);
    case Running => RunsFirstShape(w, s, id, how);
    case Storing(v) => StoresShape(w, s, id, v, how);
    case Deciding(v) => DecidesShape(w, s, id, v);
    case other =>
  }

  lemma MovedShape(w: World, s: State, id: nat, how: How, slot: nat)
    requires Before(w, s, id) && Ready(s, id, slot)
    ensures Shape(w, Moved(w, s, id, how, slot), id)
  {
    var ph := s.calls[id].phase;
    if id in s.cu.held {
      PopTakesOwn(w, s, id);
    }
    if ph.Sizing? || Sized(ph) || ph.Finishing? {
      LoopShape(w, s, id, how, slot);
    } else if ph.Waiting? {
      WaitsShape(w, s, id);
    } else {
      EarlyShape(w, s, id, how, slot);
    }
  }
}
