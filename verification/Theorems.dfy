/**
 * What holds in every state of every run, whatever the interleaving, the failures, the
 * cancellations and the evictions.
 */
module Theorems {
  import opened Options
  import opened Text
  import opened Platform
  import opened Keys
  import opened Store
  import opened Custody
  import opened Engine
  import opened Meaning
  import opened Invariants
  import opened Moves
  import opened Contents
  import opened Reachability

  // ---------------------------------------------------------------- cache transparency

  /**
   * An Ok result is the result of the same request on fresh containers with empty caches: the answers to its
   * requests, each in its place.
   */
  lemma CacheTransparency(w: World, trace: seq<State>, events: seq<Event>, i: nat, id: nat, rs: seq<Visible>)
    requires WorldOk(w) && Run(w, trace, events) && i < |trace| && id < |trace[i].calls|
    requires var c := trace[i].calls[id];
      c.phase == Done(Ok(rs)) && Whole(w, ProgOf(c)) && ProgOf(c) !in trace[i].stale && Patient(w, c)
    ensures rs == Expected(w, trace[i].calls[id]) && CallAnswered(w, trace[i].calls[id], rs)
  {
    hide CallAnswered, Expected, OneDocument, FreshBuild, Trim;
    RunKeeps(w, trace, events, i);
    assert CallOk(w, trace[i], id);
    ExpectedExactly(w, trace[i].calls[id], rs);
  }

  /**
   * A program that no batch ran with a container left unloaded is not stale. In particular `execute` alone
   * makes none so.
   */
  lemma NotStale(w: World, trace: seq<State>, events: seq<Event>, i: nat, p: Prog)
    requires WorldOk(w) && Run(w, trace, events) && i < |trace|
    requires forall id :: 0 <= id < |trace[i].calls| ==> !Skipper(trace[i].calls[id], p)
    ensures p !in trace[i].stale
  {
    RunKeeps(w, trace, events, i);
  }

  /** If no call is a batch, every Ok result is the fresh one, for every program whose build is one file. */
  lemma ExecuteTransparency(w: World, trace: seq<State>, events: seq<Event>, i: nat, id: nat, rs: seq<Visible>)
    requires WorldOk(w) && Run(w, trace, events) && i < |trace| && id < |trace[i].calls|
    requires forall j :: 0 <= j < |trace[i].calls| ==> !trace[i].calls[j].kind.Batch?
    requires var c := trace[i].calls[id]; c.phase == Done(Ok(rs)) && Whole(w, ProgOf(c)) && Patient(w, c)
    ensures var r := trace[i].calls[id].first; |rs| == 1 && Answers(w, r, r.stdin, rs[0])
  {
    NotStale(w, trace, events, i, ProgOf(trace[i].calls[id]));
    CacheTransparency(w, trace, events, i, id, rs);
  }

  /** An Ok exit has exactly one result for every request, whatever became stale. */
  lemma OneResultEach(w: World, trace: seq<State>, events: seq<Event>, i: nat, id: nat, rs: seq<Visible>)
    requires WorldOk(w) && Run(w, trace, events) && i < |trace| && id < |trace[i].calls|
    requires trace[i].calls[id].phase == Done(Ok(rs))
    ensures |rs| == Count(trace[i].calls[id])
  {
    RunKeeps(w, trace, events, i);
    assert CallOk(w, trace[i], id);
  }

  // ---------------------------------------------------------------- containers left unloaded

  /** The same state with other files in one container. */
  function With(s: State, box: nat, files: Files): State {
    s.(files := s.files[box := files])
  }

  lemma KnownAfterLoad(w: World, s: State, id: nat)
    requires Inv(w, s) && id < |s.calls| && AfterLoad(s.calls[id].phase)
    ensures BuildKnown(w, s.calls[id]) && |s.calls[id].ours| == |HeldOf(s, id)|
    ensures s.calls[id].phase.Lookup? ==>
      s.calls[id].ours == [Compiled(ProgOf(s.calls[id]).lang) && s.calls[id].runnable]
    ensures s.calls[id].phase.Loading? ==> s.calls[id].ours != [] && !s.calls[id].ours[|s.calls[id].ours| - 1]
  {
    assert CallOk(w, s, id);
  }

  lemma HolderGoesOn(w: World, s: State, id: nat)
    requires Inv(w, s) && id < |s.calls| && id in s.cu.held
    ensures !s.calls[id].phase.Done?
  {
    assert CallOk(w, s, id);
  }

  lemma WithMoves(w: World, s: State, id: nat, k: nat, files: Files)
    requires Inv(w, s) && Has(s, id, k + 1)
    ensures var s' := With(s, Box(s, id, k), files);
      Touches(s, s', id) && CustodyStep(w, s.cu, s'.cu, id) && Has(s', id, k + 1)
  {
    hide Trim, PoolKeys, StoreOk, StaleOk, CallOk, CustodyOk, HoldersExist, ProgOf;
    HolderGoesOn(w, s, id);
  }

  lemma WithStays(w: World, s: State, id: nat, box: nat, files: Files)
    requires Inv(w, s)
    ensures StoreOk(w, With(s, box, files)) && StaleOk(With(s, box, files))
  {
    hide Trim, PoolKeys, StoreGood, CallOk, CustodyOk;
    StoreStays(w, s, With(s, box, files));
    SkippersStay(s, With(s, box, files));
  }

  /** A container that a call has taken and not loaded may have any files: no invariant says otherwise. */
  lemma AnyFiles(w: World, s: State, id: nat, k: nat, files: Files)
    requires WorldOk(w) && Inv(w, s) && Has(s, id, k + 1) && !s.calls[id].ours[k] && !s.calls[id].phase.Archiving?
    ensures Inv(w, With(s, Box(s, id, k), files))
  {
    var s' := With(s, Box(s, id, k), files);
    KnowsBefore(w, s, id);
    assert CallOk(w, s, id);
    WithMoves(w, s, id, k, files);
    WithStays(w, s, id, Box(s, id, k), files);
    AnyFilesKnown(w, s, id, k, files);
    ActsTogether(w, s, s', id);
  }

  lemma AnyFilesKnown(w: World, s: State, id: nat, k: nat, files: Files)
    requires KnownBefore(w, s, id) && Has(s, id, k + 1) && !s.calls[id].ours[k] && !s.calls[id].phase.Archiving?
    ensures var s' := With(s, Box(s, id, k), files); Known(w, s', id) && Shape(w, s', id) && BuiltHere(w, s', id)
  {
    SpoilFills(w, ProgOf(s.calls[id]), HeldOf(s, id), s.calls[id].ours, s.files, k, files);
    assert s.calls[id].ours[k := false] == s.calls[id].ours;
  }

  /** Request k, run on a container with these files, has the result wanted. */
  predicate RunsRight(w: World, c: Call, k: nat, files: Files)
    requires k < Count(c)
  {
    RunOf(w, c, k, files) == Some(Want(w, c, k))
  }

  lemma LoadedIsRight(w: World, c: Call, k: nat, files: Files)
    requires WorldOk(w) && k < Count(c) && BuildKnown(w, c) && Whole(w, ProgOf(c)) && Loaded(w, ProgOf(c), files)
    ensures RunsRight(w, c, k, files)
  {
    assert c.runnable && c.stderr == "";
    RunIsWanted(w, c, k, files);
  }

  lemma SensitiveToFiles(w: World, c: Call, k: nat) returns (files: Files)
    requires k < Count(c) && BuildKnown(w, c) && Runs(w, ProgOf(c)) && Certain(ProgOf(c))
    requires Sensitive(w, ProgOf(c), LimitOf(w, c), Stdin(c, k))
    ensures !RunsRight(w, c, k, files)
  {
    var p := ProgOf(c);
    files :| Show(w.exec(p.lang, p.ver, files, Stdin(c, k)), LimitOf(w, c)) != Fresh(w, p, LimitOf(w, c), Stdin(c, k));
  }

  /** The first lookup of a batch, and the write that follows a miss, without failures. */
  function AfterFirst(w: World, s: State, id: nat): State
    requires Has(s, id, 1)
  {
    var s1 := LooksUp(w, s, id, Good);
    if s1.calls[id].phase.Writing? && Has(s1, id, 1) then Writes(s1, id, Good) else s1
  }

  /** The batch neither has its first container loaded already nor loads it now. */
  predicate SkipsFirst(w: World, s: State, c: Call) {
    !Compiled(ProgOf(c).lang) && ResultHit(s.redis, Key(w, c, 0)).Some?
  }

  /** What the first container has after the first lookup. */
  lemma FirstLeft(w: World, s: State, id: nat, files: Files)
    requires Has(s, id, 1) && s.calls[id].kind.Batch?
    ensures var c, box := s.calls[id], Box(s, id, 0);
      var s' := AfterFirst(w, With(s, box, files), id);
      box in s'.files &&
      s'.files[box] == if !Compiled(ProgOf(c).lang) && ResultHit(s.redis, Key(w, c, 0)).None?
                       then files[SourceFile(ProgOf(c).lang) := ProgOf(c).code] else files
  {
  }

  /** With these files in the first container, a run there after the first lookup is right. */
  predicate RightAfterFirst(w: World, s: State, id: nat, k: nat, files: Files)
    requires Has(s, id, 1) && k < Count(s.calls[id])
  {
    var box := Box(s, id, 0);
    var s' := AfterFirst(w, With(s, box, files), id);
    box in s'.files && RunsRight(w, s.calls[id], k, s'.files[box])
  }

  ghost predicate FirstRight(w: World, s: State, id: nat, k: nat)
    requires Has(s, id, 1) && k < Count(s.calls[id])
  {
    forall files :: Inv(w, With(s, Box(s, id, 0), files)) ==> RightAfterFirst(w, s, id, k, files)
  }

  /** A batch in any reachable state, about to look its first result up. */
  ghost predicate AtFirst(w: World, s: State, id: nat, k: nat) {
    && WorldOk(w) && Inv(w, s) && Has(s, id, 1) && s.calls[id].phase.Lookup? && s.calls[id].kind.Batch?
    && k < Count(s.calls[id]) && Runs(w, ProgOf(s.calls[id])) && Whole(w, ProgOf(s.calls[id]))
  }

  lemma LoadedAtLookup(w: World, s: State, id: nat)
    requires Inv(w, s) && Has(s, id, 1) && s.calls[id].phase.Lookup?
    requires var p := ProgOf(s.calls[id]); Compiled(p.lang) && Runs(w, p) && Whole(w, p)
    ensures Loaded(w, ProgOf(s.calls[id]), s.files[Box(s, id, 0)])
  {
    assert CallOk(w, s, id);
  }

  lemma FirstLoaded(w: World, s: State, id: nat, k: nat, files: Files)
    requires AtFirst(w, s, id, k) && !SkipsFirst(w, s, s.calls[id])
    requires Inv(w, With(s, Box(s, id, 0), files))
    ensures RightAfterFirst(w, s, id, k, files)
  {
    var c, box := s.calls[id], Box(s, id, 0);
    KnownAfterLoad(w, s, id);
    if Compiled(ProgOf(c).lang) {
      LoadedAtLookup(w, With(s, box, files), id);
    }
    FirstLeft(w, s, id, files);
    LoadedIsRight(w, c, k, AfterFirst(w, With(s, box, files), id).files[box]);
  }

  lemma FirstUnloaded(w: World, s: State, id: nat, k: nat, files: Files)
    requires Has(s, id, 1) && s.calls[id].kind.Batch? && k < Count(s.calls[id]) && SkipsFirst(w, s, s.calls[id])
    ensures RightAfterFirst(w, s, id, k, files) <==> RunsRight(w, s.calls[id], k, files)
  {
    FirstLeft(w, s, id, files);
  }

  lemma FirstAlwaysRight(w: World, s: State, id: nat, k: nat)
    requires AtFirst(w, s, id, k) && !SkipsFirst(w, s, s.calls[id])
    ensures FirstRight(w, s, id, k)
  {
    forall files | Inv(w, With(s, Box(s, id, 0), files)) ensures RightAfterFirst(w, s, id, k, files) {
      FirstLoaded(w, s, id, k, files);
    }
  }

  lemma FirstMayFail(w: World, s: State, id: nat, k: nat)
    requires AtFirst(w, s, id, k) && SkipsFirst(w, s, s.calls[id])
    requires Sensitive(w, ProgOf(s.calls[id]), LimitOf(w, s.calls[id]), Stdin(s.calls[id], k))
    ensures !FirstRight(w, s, id, k)
  {
    KnownAfterLoad(w, s, id);
    var files := SensitiveToFiles(w, s.calls[id], k);
    AnyFiles(w, s, id, 0, files);
    FirstUnloaded(w, s, id, k, files);
  }

  /**
   * The first container of a batch in any reachable state: whatever is in it, later runs there are right
   * if and only if the program is compiled or its first result is not in the cache.
   */
  lemma FirstContainerExactly(w: World, s: State, id: nat, k: nat)
    requires AtFirst(w, s, id, k)
    requires Sensitive(w, ProgOf(s.calls[id]), LimitOf(w, s.calls[id]), Stdin(s.calls[id], k))
    ensures FirstRight(w, s, id, k) <==>
      Compiled(ProgOf(s.calls[id]).lang) || ResultHit(s.redis, Key(w, s.calls[id], 0)).None?
  {
    if SkipsFirst(w, s, s.calls[id]) {
      FirstMayFail(w, s, id, k);
    } else {
      FirstAlwaysRight(w, s, id, k);
    }
  }

  /** What the container taken last has after an attempt to load it that does not fail. */
  lemma LastLeft(w: World, s: State, id: nat, left: nat, files: Files)
    requires Has(s, id, 1)
    ensures var c, box := s.calls[id], Box(s, id, |s.cu.held[id]| - 1);
      var p := ProgOf(c);
      var s', hit := Loads(w, With(s, box, files), id, left, Good), ArtifactHit(s.redis, ArtifactKey(w, p));
      box in s'.files &&
      s'.files[box] == if !Compiled(p.lang) then files[SourceFile(p.lang) := p.code]
                       else if hit.Some? then files[Primary(p.lang) := hit.value] else files
  {
  }

  /** With these files in the container taken last, a run there after the attempt to load it is right. */
  predicate RightAfterLast(w: World, s: State, id: nat, left: nat, k: nat, files: Files)
    requires Has(s, id, 1) && k < Count(s.calls[id])
  {
    var box := Box(s, id, |s.cu.held[id]| - 1);
    var s' := Loads(w, With(s, box, files), id, left, Good);
    box in s'.files && RunsRight(w, s.calls[id], k, s'.files[box])
  }

  ghost predicate LastRight(w: World, s: State, id: nat, left: nat, k: nat)
    requires Has(s, id, 1) && k < Count(s.calls[id])
  {
    forall files :: Inv(w, With(s, Box(s, id, |s.cu.held[id]| - 1), files)) ==> RightAfterLast(w, s, id, left, k, files)
  }

  /** A batch in any reachable state, about to load the container it took last. */
  ghost predicate AtLast(w: World, s: State, id: nat, left: nat, k: nat) {
    && WorldOk(w) && Inv(w, s) && Has(s, id, 1) && s.calls[id].phase == Loading(left)
    && k < Count(s.calls[id]) && Runs(w, ProgOf(s.calls[id])) && Whole(w, ProgOf(s.calls[id]))
  }

  /** The container taken last gets the program. */
  predicate LoadsLast(w: World, s: State, p: Prog) {
    !Compiled(p.lang) || ArtifactHit(s.redis, ArtifactKey(w, p)).Some?
  }

  lemma LastLoaded(w: World, s: State, id: nat, left: nat, k: nat, files: Files)
    requires AtLast(w, s, id, left, k) && BuildKnown(w, s.calls[id])
    requires LoadsLast(w, s, ProgOf(s.calls[id]))
    ensures RightAfterLast(w, s, id, left, k, files)
  {
    var c, box := s.calls[id], Box(s, id, |s.cu.held[id]| - 1);
    var p := ProgOf(c);
    LastLeft(w, s, id, left, files);
    if Compiled(p.lang) {
      ArtifactHitIsOurs(w, s.stale, s.redis, p);
      UnpackLoads(w, p, ArtifactHit(s.redis, ArtifactKey(w, p)).value, files);
    }
    LoadedIsRight(w, c, k, Loads(w, With(s, box, files), id, left, Good).files[box]);
  }

  lemma LastAlwaysRight(w: World, s: State, id: nat, left: nat, k: nat)
    requires AtLast(w, s, id, left, k) && LoadsLast(w, s, ProgOf(s.calls[id]))
    ensures LastRight(w, s, id, left, k)
  {
    KnownAfterLoad(w, s, id);
    forall files | Inv(w, With(s, Box(s, id, |s.cu.held[id]| - 1), files))
      ensures RightAfterLast(w, s, id, left, k, files)
    {
      LastLoaded(w, s, id, left, k, files);
    }
  }

  lemma LastUnloaded(w: World, s: State, id: nat, left: nat, k: nat, files: Files)
    requires Has(s, id, 1) && k < Count(s.calls[id]) && !LoadsLast(w, s, ProgOf(s.calls[id]))
    ensures RightAfterLast(w, s, id, left, k, files) <==> RunsRight(w, s.calls[id], k, files)
  {
    hide Trim, PoolKeys, OneDocument, FreshBuild;
    LastLeft(w, s, id, left, files);
  }

  lemma LastMayFail(w: World, s: State, id: nat, left: nat, k: nat)
    requires AtLast(w, s, id, left, k) && !LoadsLast(w, s, ProgOf(s.calls[id]))
    requires Sensitive(w, ProgOf(s.calls[id]), LimitOf(w, s.calls[id]), Stdin(s.calls[id], k))
    ensures !LastRight(w, s, id, left, k)
  {
    hide Trim, PoolKeys, OneDocument, FreshBuild;
    KnownAfterLoad(w, s, id);
    var files := SensitiveToFiles(w, s.calls[id], k);
    AnyFiles(w, s, id, |s.cu.held[id]| - 1, files);
    LastUnloaded(w, s, id, left, k, files);
  }

  /**
   * A further container of a batch in any reachable state: whatever is in it, runs there after a loading
   * without failure are right if and only if the program is interpreted or its artifact is in the cache.
   */
  lemma LaterContainerExactly(w: World, s: State, id: nat, left: nat, k: nat)
    requires AtLast(w, s, id, left, k)
    requires Sensitive(w, ProgOf(s.calls[id]), LimitOf(w, s.calls[id]), Stdin(s.calls[id], k))
    ensures LastRight(w, s, id, left, k) <==>
      !Compiled(ProgOf(s.calls[id]).lang) || ArtifactHit(s.redis, ArtifactKey(w, ProgOf(s.calls[id]))).Some?
  {
    if LoadsLast(w, s, ProgOf(s.calls[id])) {
      LastAlwaysRight(w, s, id, left, k);
    } else {
      LastMayFail(w, s, id, left, k);
    }
  }

  // ---------------------------------------------------------------- builds that fail

  /**
   * A batch whose build fails still runs its first request. Without stdin that is an empty command,
   * which is refused, so the build error is never reported, in no run whatever; with stdin it is all
   * that an Ok exit reports.
   */
  lemma BuildErrorReported(w: World, trace: seq<State>, events: seq<Event>, i: nat, id: nat)
    requires WorldOk(w) && Run(w, trace, events) && i < |trace| && id < |trace[i].calls|
    requires var c := trace[i].calls[id];
      && c.kind.Batch? && FailsToBuild(w, ProgOf(c)) && Clean(w, trace[i].stale, ProgOf(c))
      && c.phase.Done? && c.phase.out.Ok?
    ensures var c := trace[i].calls[id];
      c.first.stdin.Some? &&
      c.phase.out.results == [CompileError(FreshBuild(w, ProgOf(c)).stderr)]
                             + seq(|c.rest|, _ => PLACEHOLDER)
  {
    RunKeeps(w, trace, events, i);
    assert CallOk(w, trace[i], id);
  }

  /**
   * Every stored result is a run of what its key names, on whatever files, without stderr and within its
   * limit; unless the program is stale it is the fresh run.
   */
  lemma StoredIsGenuine(w: World, trace: seq<State>, events: seq<Event>, i: nat, key: string, v: Visible)
    returns (o: Origin, files: Files)
    requires WorldOk(w) && Run(w, trace, events) && i < |trace|
    requires key in trace[i].redis && trace[i].redis[key] == ResultEntry(v)
    ensures KeyOfOrigin(w, o) == key && (o.prog.lang, o.prog.ver) in PAIRS
    ensures var r := w.exec(o.prog.lang, o.prog.ver, files, o.stdin);
      r.time <= o.limit && r.stderr == "" && v == Visible(r.stdout, None, r.exitCode)
    ensures Clean(w, trace[i].stale, o.prog) ==> Runs(w, o.prog) && v == Fresh(w, o.prog, o.limit, o.stdin)
  {
    hide Trim, PoolKeys, OneDocument, FreshBuild;
    RunStore(w, trace, events, i);
    assert EntryOk(w, trace[i].stale, key, trace[i].redis[key]);
    o :| ResultFrom(w, trace[i].stale, key, v, o);
    PoolKeyUnique(o.prog.lang, o.prog.ver);
    assert w.blank(o.stdin).stderr != "";
    var runnable: bool;
    files, runnable :| Output(w, o.prog, runnable, o.limit, o.stdin, files) == Some(v);
  }

  /**
   * Every stored artifact is the main file of the build of the code its key names, if the build has one and no
   * line of the code is `EOF`.
   */
  lemma StoredArtifact(w: World, trace: seq<State>, events: seq<Event>, i: nat, p: Prog, code: string, b: string)
    requires WorldOk(w) && Run(w, trace, events) && i < |trace|
    requires ArtifactKey(w, p) in trace[i].redis && trace[i].redis[ArtifactKey(w, p)] == ArtifactEntry(code, b)
    ensures code == p.code && Compiled(p.lang) && (OneDocument(p.code) ==> Runs(w, p))
    ensures OneDocument(p.code) && Primary(p.lang) in Program(w, p) ==> Program(w, p)[Primary(p.lang)] == b
  {
    RunStore(w, trace, events, i);
    ArtifactHitIsOurs(w, trace[i].stale, trace[i].redis, p);
  }

  /**
   * Other calls may load anything into a container while it is in the pool; one that is held has the holder's
   * program.
   */
  lemma LoadedUnderInterference(w: World, trace: seq<State>, events: seq<Event>, i: nat, id: nat, k: nat)
    requires WorldOk(w) && Run(w, trace, events) && i < |trace| && id < |trace[i].calls|
    requires k < |HeldOf(trace[i], id)|
    requires var c := trace[i].calls[id];
      Whole(w, ProgOf(c)) && c.phase.Chunk? && c.runnable && !c.skipped
    ensures HeldOf(trace[i], id)[k] in trace[i].files
    ensures Loaded(w, ProgOf(trace[i].calls[id]), trace[i].files[HeldOf(trace[i], id)[k]])
  {
    RunKeeps(w, trace, events, i);
    assert CallOk(w, trace[i], id);
    assert trace[i].calls[id].ours[k];
  }

  // ---------------------------------------------------------------- containers

  /** No container is made or vanishes, none is in two places, and those in the pool are under their own key. */
  lemma Conservation(w: World, trace: seq<State>, events: seq<Event>, i: nat)
    requires WorldOk(w) && Run(w, trace, events) && i < |trace|
    ensures var cu := trace[i].cu;
      && Pooled(cu) + Held(cu) + cu.lost == w.home.Keys
      && Pooled(cu) !! Held(cu) && Pooled(cu) !! cu.lost && Held(cu) !! cu.lost
      && (forall k :: k in cu.pool ==> Distinct(cu.pool[k]))
      && (forall id :: id in cu.held ==> Distinct(cu.held[id]))
  {
    RunCustody(w, trace, events, i);
    Conserved(trace[i].cu, w.home);
  }

  /** No container is held by two calls. */
  lemma Exclusivity(w: World, trace: seq<State>, events: seq<Event>, i: nat, a: nat, b: nat, c: nat)
    requires WorldOk(w) && Run(w, trace, events) && i < |trace|
    requires c in HeldOf(trace[i], a) && c in HeldOf(trace[i], b)
    ensures a == b
  {
    RunCustody(w, trace, events, i);
    HeldOnce(trace[i].cu, w.home, a, b, c);
  }

  predicate OwnOnly(w: World, held: seq<nat>, key: string) {
    forall c :: c in held ==> c in w.home && w.home[c] == key
  }

  /** Containers in the pool lie under the key they were made for, and calls hold those of their own key only. */
  ghost predicate AllAtHome(w: World, s: State) {
    && s.cu.pool.Keys == PoolKeys()
    && (forall k :: k in s.cu.pool ==> OwnOnly(w, s.cu.pool[k], k))
    && (forall id :: id in s.cu.held ==> id < |s.calls| && OwnOnly(w, s.cu.held[id], KeyOf(ProgOf(s.calls[id]))))
  }

  lemma PooledOwn(w: World, cu: Custody, k: string)
    requires CustodyOk(w, cu) && k in cu.pool
    ensures OwnOnly(w, cu.pool[k], k)
  {
  }

  lemma HoldsOwn(w: World, s: State, id: nat)
    requires Inv(w, s) && id in s.cu.held
    ensures id < |s.calls| && OwnOnly(w, s.cu.held[id], KeyOf(ProgOf(s.calls[id])))
  {
    assert CallOk(w, s, id);
  }

  lemma KeysOfHome(w: World, s: State)
    requires Inv(w, s)
    ensures AllAtHome(w, s)
  {
    forall k | k in s.cu.pool ensures OwnOnly(w, s.cu.pool[k], k) {
      PooledOwn(w, s.cu, k);
    }
    forall id | id in s.cu.held ensures id < |s.calls| && OwnOnly(w, s.cu.held[id], KeyOf(ProgOf(s.calls[id]))) {
      HoldsOwn(w, s, id);
    }
  }

  /** A container goes back under the key it was made for; no pool is ever made after start-up. */
  lemma HomeKeys(w: World, trace: seq<State>, events: seq<Event>, i: nat)
    requires WorldOk(w) && Run(w, trace, events) && i < |trace|
    ensures AllAtHome(w, trace[i])
  {
    RunKeeps(w, trace, events, i);
    KeysOfHome(w, trace[i]);
  }

  /** With n permits, calls in flight never hold more than n(n-1)/2 + 1 containers; with the code's at most five, 11. */
  lemma ContainerBound(w: World, trace: seq<State>, events: seq<Event>, i: nat)
    requires WorldOk(w) && Run(w, trace, events) && i < |trace|
    ensures 2 * |Held(trace[i].cu)| <= w.total * (w.total - 1) + 2
    ensures w.total <= 5 ==> |Held(trace[i].cu)| <= 11
    ensures var cu := trace[i].cu; forall k :: 0 <= k < |cu.order| ==>
      cu.order[k] in cu.par && cu.order[k] in cu.held && cu.par[cu.order[k]] <= w.total - k - 1
      && |cu.held[cu.order[k]]| <= Max(1, w.total - k - 1)
  {
    hide Trim, PoolKeys;
    RunCustody(w, trace, events, i);
    QuadraticBound(trace[i].cu, w.total);
    if w.total <= 5 {
      AtMostTwenty(w.total);
    }
  }

  lemma AtMostTwenty(n: nat)
    requires n <= 5
    ensures n * (n - 1) <= 20
  {
    if n > 0 {
      assert n * (n - 1) <= 5 * (n - 1);
    }
  }

  /**
   * Containers are lost only when a call ends by `?` or is cancelled, and then exactly those it
   * holds. A call that is finishing loses none, and one that ends otherwise has returned each before.
   */
  lemma LostWhen(w: World, s: State, e: Event)
    requires Enabled(s, e)
    ensures var s' := Step(w, s, e);
      s'.cu.lost == s.cu.lost ||
      ((e.Act? || e.Cancel?) && s'.calls[e.id].phase == Done(Err) && s'.cu.lost == s.cu.lost + Elems(HeldOf(s, e.id)))
    ensures e.Act? && s.calls[e.id].phase.Finishing? ==> Step(w, s, e).cu.lost == s.cu.lost
    ensures e.Act? && Step(w, s, e).calls[e.id].phase.Done? && Step(w, s, e).calls[e.id].phase != Done(Err) ==>
      HeldOf(s, e.id) == []
  {
    if e.Act? {
      assert Touches(s, Moved(w, s, e.id, e.how, e.slot), e.id);
    }
  }

  // ---------------------------------------------------------------- over whole runs

  /** What is done stays as it is. */
  lemma DoneStays(w: World, s: State, e: Event, id: nat)
    requires Enabled(s, e) && id < |s.calls| && s.calls[id].phase.Done?
    ensures id < |Step(w, s, e).calls| && Step(w, s, e).calls[id] == s.calls[id]
  {
  }

  lemma {:induction false} DoneForEver(w: World, trace: seq<State>, events: seq<Event>, i: nat, j: nat, id: nat)
    requires Run(w, trace, events) && i <= j < |trace| && id < |trace[i].calls| && trace[i].calls[id].phase.Done?
    ensures id < |trace[j].calls| && trace[j].calls[id] == trace[i].calls[id]
    decreases j - i
  {
    if i < j {
      DoneStays(w, trace[i], events[i], id);
      assert trace[i + 1] == Step(w, trace[i], events[i]);
      DoneForEver(w, trace, events, i + 1, j, id);
    }
  }

  /** A lost container was held by a call when that ended by `?` or was cancelled. */
  lemma {:induction false} LostBy(w: World, trace: seq<State>, events: seq<Event>, i: nat, box: nat)
    returns (j: nat, id: nat)
    requires Run(w, trace, events) && i < |trace| && box in trace[i].cu.lost
    ensures j < i && box in HeldOf(trace[j], id)
    ensures id < |trace[i].calls| && trace[i].calls[id].phase == Done(Err)
  {
    assert i > 0;
    var s, e := trace[i - 1], events[i - 1];
    assert trace[i - 1 + 1] == Step(w, s, e);
    if box in s.cu.lost {
      j, id := LostBy(w, trace, events, i - 1, box);
      DoneForEver(w, trace, events, i - 1, i, id);
    } else {
      LostWhen(w, s, e);
      j, id := i - 1, e.id;
    }
  }

  /** Where the record of places says a container is, it is. */
  lemma PlaceIsReal(cu: Custody, home: map<nat, string>, box: nat)
    requires Placed(cu, home) && box in home
    ensures box in cu.place
    ensures cu.place[box].InPool? ==> home[box] in cu.pool && box in cu.pool[home[box]]
    ensures cu.place[box].With? ==> cu.place[box].id in cu.held && box in cu.held[cu.place[box].id]
    ensures cu.place[box].Gone? ==> box in cu.lost
  {
    assert box in cu.place.Keys;
  }

  lemma HeldHasHome(w: World, trace: seq<State>, events: seq<Event>, i: nat, id: nat, box: nat)
    requires WorldOk(w) && Run(w, trace, events) && i < |trace| && box in HeldOf(trace[i], id)
    ensures box in w.home
  {
    RunCustody(w, trace, events, i);
    assert box in trace[i].cu.place.Keys;
  }

  lemma DoneHoldsNone(w: World, trace: seq<State>, events: seq<Event>, i: nat, id: nat)
    requires WorldOk(w) && Run(w, trace, events) && i < |trace|
    requires id < |trace[i].calls| && trace[i].calls[id].phase.Done?
    ensures id !in trace[i].cu.held
  {
    RunKeeps(w, trace, events, i);
    assert CallOk(w, trace[i], id);
  }

  /** The pool has the container again, or another call holds it. */
  ghost predicate Elsewhere(w: World, s: State, id: nat, box: nat) {
    || (box in w.home && w.home[box] in s.cu.pool && box in s.cu.pool[w.home[box]])
    || (exists j :: j in s.cu.held && j != id && box in s.cu.held[j])
  }

  /** Another call held the container and has lost it. */
  ghost predicate LostElsewhere(trace: seq<State>, i: nat, id: nat, box: nat)
    requires i < |trace|
  {
    box in trace[i].cu.lost && exists j: nat, other: nat :: j < i && LostAt(trace, i, j, other, box) && other != id
  }

  predicate LostAt(trace: seq<State>, i: nat, j: nat, id: nat, box: nat)
    requires j < i < |trace|
  {
    box in HeldOf(trace[j], id) && id < |trace[i].calls| && trace[i].calls[id].phase == Done(Err)
  }

  /** Every container that a call with an Ok exit ever held is back in the pool, or is or was another call's since. */
  lemma OkReturnsAll(w: World, trace: seq<State>, events: seq<Event>, i: nat, j: nat, id: nat, box: nat)
    requires WorldOk(w) && Run(w, trace, events) && j < i < |trace| && id < |trace[i].calls|
    requires trace[i].calls[id].phase.Done? && trace[i].calls[id].phase.out.Ok? && box in HeldOf(trace[j], id)
    ensures Elsewhere(w, trace[i], id, box) || LostElsewhere(trace, i, id, box)
  {
    var cu := trace[i].cu;
    HeldHasHome(w, trace, events, j, id, box);
    DoneHoldsNone(w, trace, events, i, id);
    RunCustody(w, trace, events, i);
    PlaceIsReal(cu, w.home, box);
    if box in cu.lost {
      var k, other := LostBy(w, trace, events, i, box);
      assert other != id && LostAt(trace, i, k, other, box);
    }
  }
}
