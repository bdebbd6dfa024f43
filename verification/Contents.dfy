/**
 * A move keeps what is known of the contents of containers, of results and of the store.
 */
module Contents {
  import opened Options
  import opened Text
  import opened Platform
  import opened Keys
  import opened Store
  import opened Custody
  import opened Engine
  import opened Invariants

  // ---------------------------------------------------------------- what the pure parts say

  /** Running request k on a container loaded for the call gives what is wanted. */
  lemma RunIsWanted(w: World, c: Call, k: nat, files: Files)
    requires Local(w) && Complains(w) && k < Count(c) && BuildKnown(w, c) && Whole(w, ProgOf(c))
    requires c.runnable ==> Loaded(w, ProgOf(c), files)
    requires RunOf(w, c, k, files).Some?
    ensures c.stderr == "" ==> RunOf(w, c, k, files) == Some(Want(w, c, k))
    ensures c.stderr != "" ==> RunOf(w, c, k, files).value.stderr.Some?
  {
    OutputIsWanted(w, ProgOf(c), c.runnable, c.stderr, LimitOf(w, c), Stdin(c, k), files);
  }

  /** The early lookup is sound, though it reads raw fields and takes 1.0 for an absent timeout. */
  lemma EarlyHit(w: World, s: State, c: Call)
    requires Digests(w) && Complains(w) && StoreOk(w, s)
    requires ResultHit(s.redis, EarlyKey(w, c.first)).Some?
    requires Clean(w, s.stale, ProgOf(c)) && (c.first.timeout.None? ==> w.second <= w.defaultTimeout)
    ensures ResultHit(s.redis, EarlyKey(w, c.first)).value == Want(w, c, 0)
  {
    var r := c.first;
    var p := Prog(r.language, r.version, r.code);
    var limit := match r.timeout case Some(t) => t case None => w.second;
    HitIsWanted(w, s.stale, s.redis, p, limit, r.stdin);
    assert p == ProgOf(c);
    FreshMonotone(w, p, limit, LimitOf(w, c), r.stdin);
  }

  /** Requests that all have their result make up the map that the batch stands for. */
  lemma AllIsExpected(w: World, c: Call, runnable: bool, stderr: string, results: seq<Visible>)
    requires c.kind.Batch? && KnowsBuild(w, ProgOf(c), runnable, stderr) && Certain(ProgOf(c)) && stderr == ""
    requires RightSoFar(w, c, results) && |results| == Count(c)
    ensures results == Expected(w, c)
  {
    assert Stdins(c)[0] == Stdin(c, 0);
    assert results[0] == Want(w, c, 0);
    assert forall k :: 0 <= k < Count(c) ==> results[k] == Want(w, c, k) && Stdins(c)[k] == Stdin(c, k);
  }

  /** A batch whose first request fails is cut short. */
  lemma CutIsExpected(w: World, c: Call, runnable: bool, stderr: string, v: Visible)
    requires c.kind.Batch? && KnowsBuild(w, ProgOf(c), runnable, stderr) && Certain(ProgOf(c))
    requires stderr == "" ==> v == Want(w, c, 0)
    requires stderr != "" || v.exitCode != 0
    ensures [if stderr != "" then CompileError(stderr) else v] + seq(|c.rest|, _ => PLACEHOLDER) == Expected(w, c)
  {
    assert Stdins(c)[0] == Stdin(c, 0);
  }

  // ---------------------------------------------------------------- the call that moves

  /** What is known of the call after the move. */
  ghost predicate Known(w: World, s: State, id: nat) {
    && id < |s.calls|
    && LoadingKnown(w, s.calls[id])
    && Filled(w, s, id)
    && (Clean(w, s.stale, ProgOf(s.calls[id])) ==> Right(w, s.calls[id]))
  }

  /** What is known of it before, with its shape. */
  ghost predicate KnownBefore(w: World, s: State, id: nat) {
    Known(w, s, id) && Shape(w, s, id) && Distinct(HeldOf(s, id))
  }

  lemma DropKnown(w: World, s: State, id: nat)
    requires KnownBefore(w, s, id) && id in s.cu.held
    ensures Known(w, Drop(s, id), id)
  {
  }

  lemma LoadFills(w: World, p: Prog, h: seq<nat>, ours: seq<bool>, files: map<nat, Files>, k: nat, f: Files)
    requires Distinct(h) && |ours| == |h| && k < |h|
    requires AllLoaded(w, p, h, ours, files)
    requires Whole(w, p) ==> Loaded(w, p, f)
    ensures AllLoaded(w, p, h, ours[k := true], files[h[k] := f])
  {
  }

  lemma SpoilFills(w: World, p: Prog, h: seq<nat>, ours: seq<bool>, files: map<nat, Files>, k: nat, f: Files)
    requires Distinct(h) && |ours| == |h| && k < |h|
    requires AllLoaded(w, p, h, ours, files)
    ensures AllLoaded(w, p, h, ours[k := false], files[h[k] := f])
  {
  }

  /** The move changes nothing but the record of the call. */
  lemma SteadyKnown(w: World, s: State, s': State, id: nat)
    requires KnownBefore(w, s, id) && Touches(s, s', id)
    requires HeldOf(s', id) == HeldOf(s, id) && s'.files == s.files && s'.calls[id].ours == s.calls[id].ours
    requires LoadingKnown(w, s'.calls[id])
    requires Clean(w, s'.stale, ProgOf(s.calls[id])) ==> Right(w, s'.calls[id])
    ensures Known(w, s', id)
  {
  }

  /** What the early lookup, a lookup of request k, and a lookup of the artifact may find. */
  predicate EarlyOk(w: World, s: State, c: Call) {
    var hit := ResultHit(s.redis, EarlyKey(w, c.first));
    hit.Some? && Clean(w, s.stale, ProgOf(c)) && Patient(w, c) && c.kind.Handled? ==> hit.value == Want(w, c, 0)
  }

  predicate LookupOk(w: World, s: State, c: Call, k: nat) {
    k < Count(c) && ResultHit(s.redis, Key(w, c, k)).Some? && Clean(w, s.stale, ProgOf(c)) ==>
      ResultHit(s.redis, Key(w, c, k)).value == Want(w, c, k)
  }

  predicate ArtifactOk(w: World, s: State, p: Prog) {
    ArtifactHit(s.redis, ArtifactKey(w, p)).Some? ==>
      Compiled(p.lang) &&
      (Certain(p) ==> Runs(w, p) && BinaryOf(w, p, ArtifactHit(s.redis, ArtifactKey(w, p)).value))
  }

  lemma StoreGives(w: World, s: State, c: Call, k: nat)
    requires Digests(w) && Complains(w) && StoreOk(w, s)
    ensures EarlyOk(w, s, c) && LookupOk(w, s, c, k) && ArtifactOk(w, s, ProgOf(c))
  {
    if ResultHit(s.redis, EarlyKey(w, c.first)).Some? && Clean(w, s.stale, ProgOf(c)) && Patient(w, c) &&
      c.kind.Handled? {
      EarlyHit(w, s, c);
    }
    if k < Count(c) && ResultHit(s.redis, Key(w, c, k)).Some? {
      HitIsWanted(w, s.stale, s.redis, ProgOf(c), LimitOf(w, c), Stdin(c, k));
    }
    if ArtifactHit(s.redis, ArtifactKey(w, ProgOf(c))).Some? {
      ArtifactHitIsOurs(w, s.stale, s.redis, ProgOf(c));
    }
  }

  lemma LooksKnown(w: World, s: State, id: nat, how: How)
    requires KnownBefore(w, s, id) && EarlyOk(w, s, s.calls[id]) && s.calls[id].phase.Looking? && id !in s.cu.held
    ensures Known(w, Looks(w, s, id, how), id)
  {
    var s' := Looks(w, s, id, how);
    SteadyKnown(w, s, s', id);
  }

  lemma WaitsKnown(w: World, s: State, id: nat)
    requires KnownBefore(w, s, id) && s.calls[id].phase.Waiting? && s.cu.permits > 0
    ensures Known(w, Waits(s, id), id)
  {
  }

  lemma PopFills(w: World, s: State, s': State, id: nat, key: string)
    requires id in s.cu.held && s'.cu == Pop(s.cu, id, key) && s'.cu.held[id] != s.cu.held[id]
    requires Touches(s, s', id) && s'.calls[id].ours == s.calls[id].ours + [false] && s'.files == s.files
    requires Filled(w, s, id) && |s.calls[id].ours| == |s.cu.held[id]|
    ensures Filled(w, s', id)
  {
  }

  /** The record of a call that has taken its first container. */
  lemma OpenedCall(w: World, c: Call)
    requires c.phase.Admitted? && LoadingKnown(w, c)
    ensures var c' := c.(phase := if Compiled(ProgOf(c).lang) then Artifact else Lookup,
                         runnable := true, stderr := "", ours := c.ours + [false]);
      LoadingKnown(w, c') && (Right(w, c) ==> Right(w, c'))
  {
    hide Trim;
  }

  lemma StartsKnown(w: World, s: State, id: nat)
    requires KnownBefore(w, s, id) && Has(s, id, 0) && s.calls[id].phase.Admitted?
    ensures Known(w, Starts(s, id), id)
  {
    var s' := Starts(s, id);
    if s'.cu != s.cu {
      OpenedCall(w, s.calls[id]);
      PopFills(w, s, s', id, KeyOf(ProgOf(s.calls[id])));
    } else {
      SteadyKnown(w, s, s', id);
    }
  }

  lemma ConsultsKnown(w: World, s: State, id: nat, how: How)
    requires KnownBefore(w, s, id) && Has(s, id, 1) && s.calls[id].phase.Artifact?
    requires ArtifactOk(w, s, ProgOf(s.calls[id]))
    ensures Known(w, Consults(w, s, id, how), id)
  {
    SteadyKnown(w, s, Consults(w, s, id, how), id);
  }

  /** The move loads the (k+1)st container. */
  lemma LoadKnown(w: World, s: State, s': State, id: nat, k: nat, f: Files)
    requires KnownBefore(w, s, id) && Touches(s, s', id) && Has(s, id, k + 1)
    requires s'.cu == s.cu && s'.files == s.files[Box(s, id, k) := f]
    requires s'.calls[id].ours == s.calls[id].ours[k := true]
    requires Whole(w, ProgOf(s.calls[id])) ==> Loaded(w, ProgOf(s.calls[id]), f)
    requires LoadingKnown(w, s'.calls[id])
    requires Clean(w, s'.stale, ProgOf(s.calls[id])) ==> Right(w, s'.calls[id])
    ensures Known(w, s', id)
  {
    LoadFills(w, ProgOf(s.calls[id]), HeldOf(s, id), s.calls[id].ours, s.files, k, f);
  }

  /** The move leaves anything in the (k+1)st container. */
  lemma SpoilKnown(w: World, s: State, s': State, id: nat, k: nat, f: Files)
    requires KnownBefore(w, s, id) && Touches(s, s', id) && Has(s, id, k + 1)
    requires s'.cu == s.cu && s'.files == s.files[Box(s, id, k) := f]
    requires s'.calls[id].ours == s.calls[id].ours[k := false]
    requires LoadingKnown(w, s'.calls[id])
    requires Clean(w, s'.stale, ProgOf(s.calls[id])) ==> Right(w, s'.calls[id])
    ensures Known(w, s', id)
  {
    SpoilFills(w, ProgOf(s.calls[id]), HeldOf(s, id), s.calls[id].ours, s.files, k, f);
  }

  lemma UploadsKnown(w: World, s: State, id: nat, b: string, how: How)
    requires KnownBefore(w, s, id) && Has(s, id, 1) && s.calls[id].phase == Uploading(b)
    ensures Known(w, Uploads(w, s, id, b, how), id)
  {
    hide Trim, PoolKeys, OneDocument, FreshBuild, BatchResult;
    var p := ProgOf(s.calls[id]);
    if !how.Good? {
      DropKnown(w, s, id);
    } else {
      var files := s.files[Box(s, id, 0)];
      if Whole(w, p) {
        UnpackLoads(w, p, b, files);
      }
      LoadKnown(w, s, Uploads(w, s, id, b, how), id, 0, Unpacked(w, p, b, files));
    }
  }

  /** The record of a call whose build has failed. */
  lemma RejectedCall(w: World, c: Call, e: string)
    requires LoadingKnown(w, c) && c.phase.Compiling? && Compiled(ProgOf(c).lang)
    requires Certain(ProgOf(c)) ==> FreshBuild(w, ProgOf(c)) == Rejected(e)
    ensures var c' := c.(runnable := false, stderr := e,
                         phase := if e != "" && !c.kind.Batch? then Finishing(Ok([CompileError(e)])) else Lookup);
      LoadingKnown(w, c') && (Right(w, c) && Certain(ProgOf(c)) && c.results == [] ==> Right(w, c'))
  {
    hide Trim, OneDocument, FreshBuild, BatchResult, SlotsRight;
  }

  lemma RejectedKnown(w: World, s: State, id: nat, files: Files, e: string)
    requires KnownBefore(w, s, id) && Has(s, id, 1) && s.calls[id].phase.Compiling?
    requires var p := ProgOf(s.calls[id]); Certain(p) ==> FreshBuild(w, p) == Rejected(e)
    ensures Known(w, Rejects(s, id, files, e), id)
  {
    hide Trim, PoolKeys, OneDocument, FreshBuild;
    RejectedCall(w, s.calls[id], e);
    assert s.calls[id].ours == [false];
  }

  /** After a successful compiler run the container has the build, whatever else was in it. */
  lemma CompilesKnown(w: World, s: State, id: nat, how: How)
    requires ReadsSource(w) && KnownBefore(w, s, id) && Has(s, id, 1) && s.calls[id].phase.Compiling?
    ensures Known(w, Compiles(w, s, id, how), id)
  {
    hide Trim, PoolKeys, OneDocument, FreshBuild, BatchResult;
    var p := ProgOf(s.calls[id]);
    var s' := Compiles(w, s, id, how);
    if !how.Good? {
      DropKnown(w, s, id);
    } else {
      var files := Scripted(w, p, s.files[Box(s, id, 0)]);
      match BuildIn(w, p, s.files[Box(s, id, 0)])
      case Built(out) =>
        assert Whole(w, p) ==> Loaded(w, p, files + out);
        LoadKnown(w, s, s', id, 0, files + out);
      case Rejected(e) => RejectedKnown(w, s, id, files, e);
    }
  }

  lemma ArchivesKnown(w: World, s: State, id: nat, how: How)
    requires KnownBefore(w, s, id) && Has(s, id, 1) && s.calls[id].phase.Archiving?
    ensures Known(w, Archives(w, s, id, how), id)
  {
    var s' := Archives(w, s, id, how);
    if s'.cu == s.cu {
      SteadyKnown(w, s, s', id);
    } else {
      DropKnown(w, s, id);
    }
  }

  lemma FoundKnown(w: World, s: State, id: nat, v: Visible)
    requires KnownBefore(w, s, id) && Has(s, id, 1) && s.calls[id].phase.Lookup?
    requires Clean(w, s.stale, ProgOf(s.calls[id])) ==> v == Want(w, s.calls[id], 0)
    ensures Known(w, Found(s, id, v), id)
  {
    SteadyKnown(w, s, Found(s, id, v), id);
  }

  lemma MissesKnown(w: World, s: State, id: nat)
    requires KnownBefore(w, s, id) && Has(s, id, 1) && s.calls[id].phase.Lookup?
    ensures Known(w, Misses(s, id), id)
  {
    SteadyKnown(w, s, Misses(s, id), id);
  }

  lemma LooksUpKnown(w: World, s: State, id: nat, how: How)
    requires KnownBefore(w, s, id) && Has(s, id, 1) && s.calls[id].phase.Lookup?
    requires LookupOk(w, s, s.calls[id], 0)
    ensures Known(w, LooksUp(w, s, id, how), id)
  {
    var hit := ResultHit(s.redis, Key(w, s.calls[id], 0));
    if hit.Some? && how.Good? {
      FoundKnown(w, s, id, hit.value);
    } else {
      MissesKnown(w, s, id);
    }
  }

  lemma WritesKnown(w: World, s: State, id: nat, how: How)
    requires KnownBefore(w, s, id) && Has(s, id, 1) && s.calls[id].phase.Writing?
    ensures Known(w, Writes(s, id, how), id)
  {
    var p := ProgOf(s.calls[id]);
    var s' := Writes(s, id, how);
    match how
    case Hard => DropKnown(w, s, id);
    case Soft(left) => SpoilKnown(w, s, s', id, 0, left);
    case Good => LoadKnown(w, s, s', id, 0, s.files[Box(s, id, 0)][SourceFile(p.lang) := p.code]);
  }

  lemma RunsFirstKnown(w: World, s: State, id: nat, how: How)
    requires KnownBefore(w, s, id) && Has(s, id, 1) && s.calls[id].phase.Running? && Local(w) && Complains(w)
    ensures Known(w, RunsFirst(w, s, id, how), id)
  {
    hide Trim, PoolKeys, OneDocument, FreshBuild, BatchResult;
    var c := s.calls[id];
    var s' := RunsFirst(w, s, id, how);
    var files := s.files[Box(s, id, 0)];
    if how.Hard? || (how.Good? && RunOf(w, c, 0, files).None?) {
      DropKnown(w, s, id);
    } else {
      if how.Good? && Clean(w, s.stale, ProgOf(c)) {
        RunIsWanted(w, c, 0, files);
      }
      SteadyKnown(w, s, s', id);
    }
  }

  lemma StoresKnown(w: World, s: State, id: nat, v: Visible, how: How)
    requires KnownBefore(w, s, id) && Has(s, id, 1) && s.calls[id].phase == Storing(v)
    ensures Known(w, Stores(w, s, id, v, how), id)
  {
    hide Trim, PoolKeys, OneDocument, FreshBuild;
    SteadyKnown(w, s, Stores(w, s, id, v, how), id);
  }

  /** The record of a batch that goes on after its first request. */
  lemma GoesOnCall(w: World, c: Call, v: Visible)
    requires LoadingKnown(w, c) && c.phase == Deciding(v) && c.stderr == "" && v.exitCode == 0
    ensures var c' := c.(phase := Sizing, results := [v]); LoadingKnown(w, c') && (Right(w, c) ==> Right(w, c'))
  {
  }

  /** The record of one that is cut short. */
  lemma CutCall(w: World, c: Call, v: Visible)
    requires LoadingKnown(w, c) && c.phase == Deciding(v) && c.kind.Batch? && (c.stderr != "" || v.exitCode != 0)
    ensures var cut := [if c.stderr != "" then CompileError(c.stderr) else v] + seq(|c.rest|, _ => PLACEHOLDER);
      var c' := c.(phase := Finishing(Ok(cut)));
      LoadingKnown(w, c') && (Certain(ProgOf(c)) && Right(w, c) ==> Right(w, c'))
  {
    hide Trim, PoolKeys, OneDocument, FreshBuild;
    if Certain(ProgOf(c)) && Right(w, c) {
      CutIsExpected(w, c, c.runnable, c.stderr, v);
    }
  }

  lemma DecidesKnown(w: World, s: State, id: nat, v: Visible)
    requires KnownBefore(w, s, id) && Has(s, id, 1) && s.calls[id].phase == Deciding(v)
    ensures Known(w, Decides(s, id, v), id)
  {
    var c := s.calls[id];
    if c.stderr != "" || v.exitCode != 0 {
      CutCall(w, c, v);
    } else {
      GoesOnCall(w, c, v);
    }
    SteadyKnown(w, s, Decides(s, id, v), id);
  }

  lemma SizesKnown(w: World, s: State, id: nat)
    requires KnownBefore(w, s, id) && Has(s, id, 1) && s.calls[id].phase.Sizing?
    ensures Known(w, Sizes(s, id), id)
  {
    SteadyKnown(w, s, Sizes(s, id), id);
  }

  /** The record of a batch that has taken one more. */
  lemma GrownCall(w: World, c: Call, left: nat)
    requires LoadingKnown(w, c) && c.phase == Filling(left + 1)
    ensures var c' := c.(phase := Loading(left), ours := c.ours + [false]);
      LoadingKnown(w, c') && (Right(w, c) ==> Right(w, c'))
  {
  }

  lemma GrowsKnown(w: World, s: State, id: nat, left: nat)
    requires KnownBefore(w, s, id) && Has(s, id, 0) && s.calls[id].phase == Filling(left + 1)
    ensures Known(w, Grows(s, id, left), id)
  {
    var s' := Grows(s, id, left);
    if s'.cu == s.cu {
      SteadyKnown(w, s, s', id);
    } else {
      GrownCall(w, s.calls[id], left);
      PopFills(w, s, s', id, KeyOf(ProgOf(s.calls[id])));
    }
  }

  /** No request of a new chunk has a result yet. */
  lemma ChunkIsRight(w: World, c: Call, width: nat, count: nat)
    requires LoadingKnown(w, c) && c.phase == Filling(0) && |c.results| + count <= Count(c)
    ensures var c' := c.(width := width, phase := Chunk(seq(count, _ => Idle)));
      LoadingKnown(w, c') && (Right(w, c) ==> Right(w, c'))
  {
  }

  /** The record of a batch that has all its results, and of one that has no container left. */
  lemma EndedCall(w: World, c: Call)
    requires LoadingKnown(w, c) && c.phase == Filling(0) && c.kind.Batch? && |c.results| <= Count(c)
    ensures LoadingKnown(w, c.(phase := Done(Fault))) && (Right(w, c) ==> Right(w, c.(phase := Done(Fault))))
    ensures Left(c) == 0 ==> var c' := c.(phase := Finishing(Ok(c.results)));
      LoadingKnown(w, c') && (Certain(ProgOf(c)) && Right(w, c) ==> Right(w, c'))
  {
    hide Trim, PoolKeys, OneDocument, FreshBuild;
    if Left(c) == 0 && Certain(ProgOf(c)) && Right(w, c) {
      AllIsExpected(w, c, c.runnable, c.stderr, c.results);
    }
  }

  lemma BeginsKnown(w: World, s: State, id: nat)
    requires KnownBefore(w, s, id) && Has(s, id, 0) && s.calls[id].phase == Filling(0)
    ensures Known(w, Begins(s, id), id)
  {
    var c, h := s.calls[id], s.cu.held[id];
    if Left(c) == 0 || h == [] {
      EndedCall(w, c);
    } else {
      var width := if c.width == 0 then |h| else c.width;
      ChunkIsRight(w, c, width, Min(width, Left(c)));
    }
    SteadyKnown(w, s, Begins(s, id), id);
  }

  lemma KeptKnown(w: World, s: State, id: nat, left: nat, files: Files)
    requires KnownBefore(w, s, id) && Has(s, id, 1) && s.calls[id].phase == Loading(left)
    ensures Known(w, Kept(s, id, left, files), id)
  {
    hide Trim, PoolKeys, Quiet, Touches, Early, Keeps, Tame, Loses;
    SpoilKnown(w, s, Kept(s, id, left, files), id, |s.cu.held[id]| - 1, files);
  }

  /** The record of a batch that has loaded the container taken last. */
  lemma GotCall(w: World, c: Call, left: nat)
    requires LoadingKnown(w, c) && c.phase == Loading(left) && c.ours != []
    ensures var c' := c.(phase := Filling(left), ours := c.ours[|c.ours| - 1 := true]);
      LoadingKnown(w, c') && (Right(w, c) ==> Right(w, c'))
  {
  }

  lemma GetsKnown(w: World, s: State, id: nat, left: nat, name: string, text: string)
    requires KnownBefore(w, s, id) && Has(s, id, 1) && s.calls[id].phase == Loading(left)
    requires Whole(w, ProgOf(s.calls[id])) ==>
      Loaded(w, ProgOf(s.calls[id]), s.files[Box(s, id, |s.cu.held[id]| - 1)][name := text])
    ensures Known(w, Gets(s, id, left, name, text), id)
  {
    hide Trim, PoolKeys, Quiet, Touches, Early, Keeps, Tame, Loses;
    var k := |s.cu.held[id]| - 1;
    GotCall(w, s.calls[id], left);
    LoadKnown(w, s, Gets(s, id, left, name, text), id, k, s.files[Box(s, id, k)][name := text]);
  }

  lemma LoadsKnown(w: World, s: State, id: nat, left: nat, how: How)
    requires KnownBefore(w, s, id) && Has(s, id, 1) && s.calls[id].phase == Loading(left)
    requires ArtifactOk(w, s, ProgOf(s.calls[id]))
    ensures Known(w, Loads(w, s, id, left, how), id)
  {
    hide Trim, PoolKeys, Quiet, Touches, Early, Keeps, Tame, Loses;
    var p := ProgOf(s.calls[id]);
    DropKnown(w, s, id);
    KeptKnown(w, s, id, left, LeftFiles(s, id, how));
    if Compiled(p.lang) && ArtifactHit(s.redis, ArtifactKey(w, p)).Some? {
      var b := ArtifactHit(s.redis, ArtifactKey(w, p)).value;
      if Whole(w, p) {
        UnpackLoads(w, p, b, s.files[Box(s, id, |s.cu.held[id]| - 1)]);
      }
      GetsKnown(w, s, id, left, Primary(p.lang), b);
    } else if !Compiled(p.lang) {
      GetsKnown(w, s, id, left, SourceFile(p.lang), p.code);
    }
  }

  /** Each request of each chunk runs on a container that has the program, or makes the program stale. */
  lemma SlotIsRight(w: World, s: State, id: nat, slots: seq<Slot>, i: nat, how: How)
    requires KnownBefore(w, s, id) && HasSlot(s, id, slots, i) && Local(w) && Complains(w)
    requires LookupOk(w, s, s.calls[id], |s.calls[id].results| + i)
    requires Clean(w, s.stale, ProgOf(s.calls[id])) && !RunsStale(s, id, slots, i, how)
    ensures SlotRight(SlotAfter(w, s, id, slots, i, how), Want(w, s.calls[id], |s.calls[id].results| + i))
  {
    hide Trim, PoolKeys, OneDocument, FreshBuild;
    var c := s.calls[id];
    var k := |c.results| + i;
    var files := s.files[Box(s, id, BoxOf(s, id, i))];
    assert c.stderr == "" by {
      assert SoFar(w, c);
    }
    if slots[i].Missed? && how.Good? && RunOf(w, c, k, files).Some? {
      RunIsWanted(w, c, k, files);
    } else {
      assert SlotRight(slots[i], Want(w, c, k));
    }
  }

  lemma OneSlotRight(w: World, c: Call, slots: seq<Slot>, i: nat, x: Slot)
    requires c.phase == Chunk(slots) && Right(w, c) && i < |slots|
    requires |c.results| + |slots| <= Count(c) && SlotRight(x, Want(w, c, |c.results| + i))
    ensures Right(w, c.(phase := Chunk(slots[i := x])))
  {
    var c' := c.(phase := Chunk(slots[i := x]));
    assert SoFar(w, c');
    assert SlotsRight(w, c', slots[i := x]);
  }

  lemma SlotsRightAfter(w: World, s: State, id: nat, slots: seq<Slot>, i: nat, how: How)
    requires KnownBefore(w, s, id) && HasSlot(s, id, slots, i) && Local(w) && Complains(w)
    requires LookupOk(w, s, s.calls[id], |s.calls[id].results| + i)
    ensures var s' := Slots(w, s, id, slots, i, how);
      Clean(w, s'.stale, ProgOf(s.calls[id])) ==> Right(w, s'.calls[id])
  {
    hide Trim, PoolKeys, OneDocument, FreshBuild;
    var c, s' := s.calls[id], Slots(w, s, id, slots, i, how);
    if Clean(w, s'.stale, ProgOf(c)) {
      SlotIsRight(w, s, id, slots, i, how);
      OneSlotRight(w, c, slots, i, SlotAfter(w, s, id, slots, i, how));
    }
  }

  lemma SlotsKnown(w: World, s: State, id: nat, slots: seq<Slot>, i: nat, how: How)
    requires KnownBefore(w, s, id) && HasSlot(s, id, slots, i) && Local(w) && Complains(w)
    requires LookupOk(w, s, s.calls[id], |s.calls[id].results| + i)
    ensures Known(w, Slots(w, s, id, slots, i, how), id)
  {
    SlotsRightAfter(w, s, id, slots, i, how);
    SteadyKnown(w, s, Slots(w, s, id, slots, i, how), id);
  }

  /** The record of a batch whose chunk has ended well. */
  lemma JoinedCall(w: World, c: Call, slots: seq<Slot>, results: seq<Visible>)
    requires LoadingKnown(w, c) && c.phase == Chunk(slots) && c.kind.Batch? && c.results != []
    requires |results| == |c.results| + |slots| <= Count(c) && results[..|c.results|] == c.results
    requires forall i :: 0 <= i < |slots| ==> slots[i].Got? && results[|c.results| + i] == slots[i].v
    ensures var c' := c.(results := results,
                         phase := if |results| < Count(c) then Draining else Finishing(Ok(results)));
      LoadingKnown(w, c') && (Certain(ProgOf(c)) && Right(w, c) ==> Right(w, c'))
  {
    hide Trim, PoolKeys, OneDocument, FreshBuild;
    if Certain(ProgOf(c)) && Right(w, c) {
      forall k | 0 <= k < |results| ensures results[k] == Want(w, c, k) {
        if k < |c.results| {
          assert results[k] == c.results[k];
        } else {
          assert SlotRight(slots[k - |c.results|], Want(w, c, k)) && slots[k - |c.results|].Got?;
        }
      }
      assert results[0] == c.results[0];
      if |results| == Count(c) {
        AllIsExpected(w, c, c.runnable, c.stderr, results);
      }
    }
  }

  lemma JoinsKnown(w: World, s: State, id: nat, slots: seq<Slot>)
    requires KnownBefore(w, s, id) && Has(s, id, 1) && s.calls[id].phase == Chunk(slots) && AllFinished(slots)
    ensures Known(w, Joins(s, id, slots), id)
  {
    var c := s.calls[id];
    if Broken in slots {
      DropKnown(w, s, id);
    } else {
      var s' := Joins(s, id, slots);
      forall i | 0 <= i < |slots| ensures slots[i].Got? {
        assert slots[i] in slots;
      }
      JoinedCall(w, c, slots, s'.calls[id].results);
      SteadyKnown(w, s, s', id);
    }
  }

  lemma TailLoaded(w: World, p: Prog, h: seq<nat>, ours: seq<bool>, files: map<nat, Files>)
    requires AllLoaded(w, p, h, ours, files) && |h| == |ours| > 0
    ensures AllLoaded(w, p, h[1..], ours[1..], files)
  {
  }

  lemma ReturnedCall(w: World, c: Call)
    requires LoadingKnown(w, c) && c.ours != [] && (c.phase.Draining? || c.phase.Finishing?)
    ensures var c' := c.(ours := c.ours[1..]); LoadingKnown(w, c') && (Right(w, c) ==> Right(w, c'))
  {
  }

  lemma ReturnsKnown(w: World, s: State, id: nat)
    requires KnownBefore(w, s, id) && Has(s, id, 1)
    requires s.calls[id].phase.Draining? || s.calls[id].phase.Finishing?
    ensures Known(w, Returns(s, id), id)
  {
    ReturnedCall(w, s.calls[id]);
    TailLoaded(w, ProgOf(s.calls[id]), HeldOf(s, id), s.calls[id].ours, s.files);
  }

  lemma DrainsKnown(w: World, s: State, id: nat)
    requires KnownBefore(w, s, id) && Has(s, id, 0) && s.calls[id].phase.Draining?
    ensures Known(w, Drains(s, id), id)
  {
    if s.cu.held[id] != [] {
      ReturnsKnown(w, s, id);
    } else {
      SteadyKnown(w, s, Drains(s, id), id);
    }
  }

  lemma FinishesKnown(w: World, s: State, id: nat, out: Outcome)
    requires KnownBefore(w, s, id) && Has(s, id, 0) && s.calls[id].phase == Finishing(out)
    ensures Known(w, Finishes(s, id, out), id)
  {
    hide Trim, PoolKeys, OneDocument, FreshBuild;
    if s.cu.held[id] != [] {
      ReturnsKnown(w, s, id);
    } else {
      SteadyKnown(w, s, Finishes(s, id, out), id);
    }
  }
}
