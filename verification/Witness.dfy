/**
 * Runs that show what can happen: from any state at rest and in any world, step by step, a single call
 * with nothing failing. The runs in `Failures` are put together from these steps.
 */
module Witness {
  import opened Options
  import opened Text
  import opened Platform
  import opened Keys
  import opened Store
  import opened Custody
  import opened Engine
  import opened ContainerPool

  import Shares

  // ---------------------------------------------------------------- runs without failures

  /** No operation fails and no call is cancelled; entries may expire if `expiry`. */
  predicate Fine(e: Event, expiry: bool) {
    e.Spawn? || (e.Act? && e.how.Good?) || (e.Evict? && expiry)
  }

  /** Such a run leads here. */
  ghost predicate Smooth(w: World, s: State, expiry: bool) {
    exists trace: seq<State>, events: seq<Event> :: SmoothRun(w, s, expiry, trace, events)
  }

  ghost predicate SmoothRun(w: World, s: State, expiry: bool, trace: seq<State>, events: seq<Event>) {
    Run(w, trace, events) && trace[|trace| - 1] == s && forall i :: 0 <= i < |events| ==> Fine(events[i], expiry)
  }

  lemma SmoothStart(w: World, s: State, expiry: bool)
    requires Init(w, s)
    ensures Smooth(w, s, expiry)
  {
    assert SmoothRun(w, s, expiry, [s], []);
  }

  lemma SmoothStep(w: World, s: State, e: Event, expiry: bool)
    requires Smooth(w, s, expiry) && Enabled(s, e) && Fine(e, expiry)
    ensures Smooth(w, Step(w, s, e), expiry)
  {
    hide Enabled, Step, Init;
    var trace: seq<State>, events: seq<Event> :| SmoothRun(w, s, expiry, trace, events);
    var trace', events' := trace + [Step(w, s, e)], events + [e];
    forall i | 0 <= i < |events'|
      ensures Enabled(trace'[i], events'[i]) && trace'[i + 1] == Step(w, trace'[i], events'[i])
    {
      if i < |events| {
        assert trace'[i] == trace[i] && trace'[i + 1] == trace[i + 1] && events'[i] == events[i];
      }
    }
    assert SmoothRun(w, Step(w, s, e), expiry, trace', events');
  }

  // ---------------------------------------------------------------- what such a run has led to

  /** The call in flight, the free permits, its stack in the pool, what it holds, and the rest. */
  datatype View = View(c: Call, free: nat, rest: seq<nat>, held: seq<nat>, files: map<nat, Files>,
    redis: map<string, Entry>, stale: set<Prog>)

  predicate Appears(s: State, n: nat, v: View) {
    && n < |s.calls| && s.calls[n] == v.c && (forall i :: 0 <= i < |s.calls| && i != n ==> s.calls[i].phase.Done?)
    && |v.c.ours| == |v.held| && s.cu.permits == v.free && s.cu.held == map[n := v.held]
    && KeyOf(ProgOf(v.c)) in s.cu.pool && s.cu.pool[KeyOf(ProgOf(v.c))] == v.rest
    && s.files == v.files && s.redis == v.redis && s.stale == v.stale
    && (forall x :: x in v.held ==> x in s.files) && (forall x :: x in v.rest ==> x in s.files)
  }

  /** Only one call is in flight, and it looks like this. */
  ghost predicate Busy(w: World, expiry: bool, v: View) {
    exists s: State, n: nat :: Smooth(w, s, expiry) && Appears(s, n, v)
  }

  predicate Rests(s: State, free: nat, key: string, stack: seq<nat>, files: map<nat, Files>,
          redis: map<string, Entry>, stale: set<Prog>)
  {
    && s.cu.permits == free && s.cu.held == map[] && key in s.cu.pool && s.cu.pool[key] == stack
    && s.files == files && s.redis == redis && s.stale == stale && (forall x :: x in stack ==> x in files)
    && forall i :: 0 <= i < |s.calls| ==> s.calls[i].phase.Done?
  }

  /** No call is in flight. */
  ghost predicate AtRest(w: World, expiry: bool, free: nat, key: string, stack: seq<nat>, files: map<nat, Files>,
          redis: map<string, Entry>, stale: set<Prog>)
  {
    exists s: State :: Smooth(w, s, expiry) && Rests(s, free, key, stack, files, redis, stale)
  }

  predicate Ended(s: State, n: nat, kind: Kind, first: Request, rest: seq<Request>, out: Outcome) {
    n < |s.calls| && s.calls[n].phase == Done(out) && s.calls[n].kind == kind && s.calls[n].first == first
    && s.calls[n].rest == rest
  }

  /** Such a call has ended so. */
  ghost predicate Over(w: World, expiry: bool, kind: Kind, first: Request, rest: seq<Request>, out: Outcome,
          stale: set<Prog>)
  {
    exists s: State, n: nat :: Smooth(w, s, expiry) && Ended(s, n, kind, first, rest, out) && s.stale == stale
  }

  /** And the container is lost. */
  ghost predicate OverWithout(w: World, expiry: bool, kind: Kind, first: Request, rest: seq<Request>, box: nat) {
    exists s: State, n: nat :: Smooth(w, s, expiry) && Ended(s, n, kind, first, rest, Err) && box in s.cu.lost
  }

  /** The next move of the call, without failure, makes it look like this. */
  predicate Leads(w: World, s: State, n: nat, slot: nat, v: View) {
    Ready(s, n, slot) && Appears(Moved(w, s, n, Good, slot), n, v)
  }

  lemma Goes(w: World, expiry: bool, v: View, slot: nat, v': View)
    requires Busy(w, expiry, v) && forall s, n: nat :: Appears(s, n, v) ==> Leads(w, s, n, slot, v')
    ensures Busy(w, expiry, v')
  {
    hide Smooth, Moved, Appears, Ready;
    var s, n: nat :| Smooth(w, s, expiry) && Appears(s, n, v);
    assert Leads(w, s, n, slot, v');
    SmoothStep(w, s, Act(n, Good, slot), expiry);
    assert Smooth(w, Moved(w, s, n, Good, slot), expiry);
  }

  // ---------------------------------------------------------------- the moves of a call

  function StoredIn(w: World, redis: map<string, Entry>, c: Call, k: nat, r: Visible): map<string, Entry>
    requires k < Count(c)
  {
    if r.stderr.None? then redis[Key(w, c, k) := ResultEntry(r)] else redis
  }

  /** The call has a chunk under way that is no longer than its containers, and the slot is one of it. */
  predicate InChunk(v: View, slots: seq<Slot>, i: nat) {
    && v.c.phase == Chunk(slots) && i < |slots| <= |v.held| == |v.c.ours|
    && |v.c.results| + |slots| <= Count(v.c)
  }

  /** The call takes its first container. */
  function Open(v: View): View
    requires v.rest != []
  {
    v.(c := v.c.(phase := if Compiled(ProgOf(v.c).lang) then Artifact else Lookup, runnable := true, stderr := "",
                 ours := [false]),
       rest := v.rest[..|v.rest| - 1], held := [v.rest[|v.rest| - 1]])
  }

  lemma OpenGoes(w: World, expiry: bool, v: View)
    requires Busy(w, expiry, v)
    requires v.c.phase.Admitted? && Accepted(v.c) && v.rest != [] && v.held == [] && v.c.ours == []
    ensures Busy(w, expiry, Open(v))
  {
    hide Busy, Trim, PoolKeys, Accepted, Quiet, Touches, Early, Keeps, Tame, Loses;
    forall s, n: nat | Appears(s, n, v) ensures Leads(w, s, n, 0, Open(v)) {
      assert [] + [false] == [false] && [] + [v.rest[|v.rest| - 1]] == [v.rest[|v.rest| - 1]];
      assert v.rest[|v.rest| - 1] in v.rest;
    }
    Goes(w, expiry, v, 0, Open(v));
  }

  /** Its artifact is not in the cache. */
  function MissArtifact(v: View): View {
    v.(c := v.c.(phase := Compiling))
  }

  lemma MissArtifactGoes(w: World, expiry: bool, v: View)
    requires Busy(w, expiry, v)
    requires v.c.phase.Artifact? && |v.held| == |v.c.ours| == 1 && v.held[0] in v.files
    requires ArtifactHit(v.redis, ArtifactKey(w, ProgOf(v.c))).None?
    ensures Busy(w, expiry, MissArtifact(v))
  {
    hide Busy, Trim, PoolKeys, ArtifactKey, Quiet, Touches, Early, Keeps, Tame, Loses;
    forall s, n: nat | Appears(s, n, v) ensures Leads(w, s, n, 0, MissArtifact(v)) {
    }
    Goes(w, expiry, v, 0, MissArtifact(v));
  }

  /** It is. */
  function FindArtifact(v: View, b: string): View {
    v.(c := v.c.(phase := Uploading(b)))
  }

  lemma FindArtifactGoes(w: World, expiry: bool, v: View, b: string)
    requires Busy(w, expiry, v)
    requires v.c.phase.Artifact? && |v.held| == |v.c.ours| == 1 && v.held[0] in v.files
    requires ArtifactHit(v.redis, ArtifactKey(w, ProgOf(v.c))) == Some(b)
    ensures Busy(w, expiry, FindArtifact(v, b))
  {
    hide Busy, Trim, PoolKeys, ArtifactKey, Quiet, Touches, Early, Keeps, Tame, Loses;
    forall s, n: nat | Appears(s, n, v) ensures Leads(w, s, n, 0, FindArtifact(v, b)) {
    }
    Goes(w, expiry, v, 0, FindArtifact(v, b));
  }

  /** It is unpacked. */
  function Upload(w: World, v: View, b: string): View
    requires v.held != [] && v.held[0] in v.files && v.c.ours != []
  {
    v.(c := v.c.(phase := Lookup, runnable := true, ours := v.c.ours[0 := true]),
       files := v.files[v.held[0] := Unpacked(w, ProgOf(v.c), b, v.files[v.held[0]])])
  }

  lemma UploadGoes(w: World, expiry: bool, v: View, b: string)
    requires Busy(w, expiry, v)
    requires v.c.phase == Uploading(b) && |v.held| == |v.c.ours| == 1 && v.held[0] in v.files
    ensures Busy(w, expiry, Upload(w, v, b))
  {
    hide Busy, Trim, PoolKeys, Unpacked, Quiet, Touches, Early, Keeps, Tame, Loses;
    forall s, n: nat | Appears(s, n, v) ensures Leads(w, s, n, 0, Upload(w, v, b)) {
      assert Moved(w, s, n, Good, 0) == Uploads(w, s, n, b, Good);
    }
    Goes(w, expiry, v, 0, Upload(w, v, b));
  }

  /** The compiler succeeds. */
  function Build(w: World, v: View, out: Files): View
    requires v.held != [] && v.held[0] in v.files && v.c.ours != []
  {
    v.(c := v.c.(phase := Archiving, ours := v.c.ours[0 := true]),
       files := v.files[v.held[0] := Scripted(w, ProgOf(v.c), v.files[v.held[0]]) + out])
  }

  lemma BuildGoes(w: World, expiry: bool, v: View, out: Files)
    requires Busy(w, expiry, v)
    requires v.c.phase.Compiling? && |v.held| == |v.c.ours| == 1 && v.held[0] in v.files
    requires BuildIn(w, ProgOf(v.c), v.files[v.held[0]]) == Built(out)
    ensures Busy(w, expiry, Build(w, v, out))
  {
    hide Busy, Trim, PoolKeys, BuildIn, Scripted, Quiet, Touches, Early, Keeps, Tame, Loses;
    forall s, n: nat | Appears(s, n, v) ensures Leads(w, s, n, 0, Build(w, v, out)) {
    }
    Goes(w, expiry, v, 0, Build(w, v, out));
  }

  /** The compiler fails. */
  function Reject(w: World, v: View, e: string): View
    requires v.held != [] && v.held[0] in v.files
  {
    v.(c := v.c.(phase := Lookup, runnable := false, stderr := e),
       files := v.files[v.held[0] := Scripted(w, ProgOf(v.c), v.files[v.held[0]])])
  }

  lemma RejectGoes(w: World, expiry: bool, v: View, e: string)
    requires Busy(w, expiry, v)
    requires v.c.phase.Compiling? && v.c.kind.Batch? && |v.held| == |v.c.ours| == 1 && v.held[0] in v.files
    requires BuildIn(w, ProgOf(v.c), v.files[v.held[0]]) == Rejected(e)
    ensures Busy(w, expiry, Reject(w, v, e))
  {
    hide Busy, Trim, PoolKeys, BuildIn, Scripted, Quiet, Touches, Early, Keeps, Tame, Loses;
    forall s, n: nat | Appears(s, n, v) ensures Leads(w, s, n, 0, Reject(w, v, e)) {
      assert Moved(w, s, n, Good, 0) == Compiles(w, s, n, Good);
    }
    Goes(w, expiry, v, 0, Reject(w, v, e));
  }

  /** It fails for `execute`, which reports that. */
  function RejectAlone(w: World, v: View, e: string): View
    requires v.held != [] && v.held[0] in v.files
  {
    v.(c := v.c.(phase := Finishing(Ok([CompileError(e)])), runnable := false, stderr := e),
       files := v.files[v.held[0] := Scripted(w, ProgOf(v.c), v.files[v.held[0]])])
  }

  lemma RejectAloneGoes(w: World, expiry: bool, v: View, e: string)
    requires Busy(w, expiry, v)
    requires v.c.phase.Compiling? && !v.c.kind.Batch? && |v.held| == |v.c.ours| == 1 && v.held[0] in v.files && e != ""
    requires BuildIn(w, ProgOf(v.c), v.files[v.held[0]]) == Rejected(e)
    ensures Busy(w, expiry, RejectAlone(w, v, e))
  {
    hide Busy, Trim, PoolKeys, BuildIn, Scripted, Quiet, Touches, Early, Keeps, Tame, Loses;
    forall s, n: nat | Appears(s, n, v) ensures Leads(w, s, n, 0, RejectAlone(w, v, e)) {
      assert Moved(w, s, n, Good, 0) == Compiles(w, s, n, Good);
    }
    Goes(w, expiry, v, 0, RejectAlone(w, v, e));
  }

  /** The main file is fetched and stored. */
  function Fetch(w: World, v: View, b: string): View {
    v.(c := v.c.(phase := Lookup),
       redis := v.redis[ArtifactKey(w, ProgOf(v.c)) := ArtifactEntry(ProgOf(v.c).code, b)])
  }

  lemma FetchGoes(w: World, expiry: bool, v: View, b: string)
    requires Busy(w, expiry, v)
    requires v.c.phase.Archiving? && |v.held| == |v.c.ours| == 1 && v.held[0] in v.files
    requires var main := Primary(ProgOf(v.c).lang); main in v.files[v.held[0]] && v.files[v.held[0]][main] == b != ""
    ensures Busy(w, expiry, Fetch(w, v, b))
  {
    hide Busy, Trim, PoolKeys, ArtifactKey, Quiet, Touches, Early, Keeps, Tame, Loses;
    forall s, n: nat | Appears(s, n, v) ensures Leads(w, s, n, 0, Fetch(w, v, b)) {
      assert Moved(w, s, n, Good, 0) == Archives(w, s, n, Good);
    }
    Goes(w, expiry, v, 0, Fetch(w, v, b));
  }

  /** The first result is in the cache, and the call is a batch. */
  function Find(v: View, r: Visible): View
    requires v.c.ours != []
  {
    v.(c := v.c.(phase := Deciding(r), skipped := v.c.skipped || !v.c.ours[0]))
  }

  lemma FindGoes(w: World, expiry: bool, v: View, r: Visible)
    requires Busy(w, expiry, v)
    requires v.c.phase.Lookup? && v.c.kind.Batch? && |v.held| == |v.c.ours| == 1 && v.held[0] in v.files
    requires ResultHit(v.redis, Key(w, v.c, 0)) == Some(r)
    ensures Busy(w, expiry, Find(v, r))
  {
    hide Busy, Trim, PoolKeys, Key, Quiet, Touches, Early, Keeps, Tame, Loses;
    forall s, n: nat | Appears(s, n, v) ensures Leads(w, s, n, 0, Find(v, r)) {
    }
    Goes(w, expiry, v, 0, Find(v, r));
  }

  /** It is not. */
  function Miss(v: View): View {
    v.(c := v.c.(phase := if Compiled(ProgOf(v.c).lang) then Running else Writing))
  }

  lemma MissGoes(w: World, expiry: bool, v: View)
    requires Busy(w, expiry, v)
    requires v.c.phase.Lookup? && |v.held| == |v.c.ours| == 1 && v.held[0] in v.files
    requires ResultHit(v.redis, Key(w, v.c, 0)).None?
    ensures Busy(w, expiry, Miss(v))
  {
    hide Busy, Trim, PoolKeys, Key, Quiet, Touches, Early, Keeps, Tame, Loses;
    forall s, n: nat | Appears(s, n, v) ensures Leads(w, s, n, 0, Miss(v)) {
    }
    Goes(w, expiry, v, 0, Miss(v));
  }

  /** The source is written. */
  function Write(v: View): View
    requires v.held != [] && v.held[0] in v.files
  {
    v.(c := v.c.(phase := Running, ours := [true]),
       files := v.files[v.held[0] := v.files[v.held[0]][SourceFile(ProgOf(v.c).lang) := ProgOf(v.c).code]])
  }

  lemma WriteGoes(w: World, expiry: bool, v: View)
    requires Busy(w, expiry, v)
    requires v.c.phase.Writing? && |v.held| == |v.c.ours| == 1 && v.held[0] in v.files
    ensures Busy(w, expiry, Write(v))
  {
    hide Busy, Trim, PoolKeys, Quiet, Touches, Early, Keeps, Tame, Loses;
    forall s, n: nat | Appears(s, n, v) ensures Leads(w, s, n, 0, Write(v)) {
      assert v.c.ours[0 := true] == [true];
      assert Moved(w, s, n, Good, 0) == Writes(s, n, Good);
    }
    Goes(w, expiry, v, 0, Write(v));
  }

  /** The first request is run. */
  function RunFirst(v: View, r: Visible): View {
    v.(c := v.c.(phase := Storing(r)))
  }

  lemma RunFirstGoes(w: World, expiry: bool, v: View, r: Visible)
    requires Busy(w, expiry, v)
    requires v.c.phase.Running? && |v.held| == |v.c.ours| == 1 && v.held[0] in v.files
    requires RunOf(w, v.c, 0, v.files[v.held[0]]) == Some(r)
    ensures Busy(w, expiry, RunFirst(v, r))
  {
    hide Busy, Trim, PoolKeys, RunOf, Quiet, Touches, Early, Keeps, Tame, Loses;
    forall s, n: nat | Appears(s, n, v) ensures Leads(w, s, n, 0, RunFirst(v, r)) {
    }
    Goes(w, expiry, v, 0, RunFirst(v, r));
  }

  /** Its result is stored if it has no stderr. */
  function StoreFirst(w: World, v: View, r: Visible): View {
    v.(c := v.c.(phase := if v.c.kind.Batch? then Deciding(r) else Finishing(Ok([r]))),
       redis := StoredIn(w, v.redis, v.c, 0, r))
  }

  lemma StoreFirstGoes(w: World, expiry: bool, v: View, r: Visible)
    requires Busy(w, expiry, v)
    requires v.c.phase == Storing(r) && |v.held| == |v.c.ours| == 1 && v.held[0] in v.files
    ensures Busy(w, expiry, StoreFirst(w, v, r))
  {
    hide Busy, Trim, PoolKeys, Key, Quiet, Touches, Early, Keeps, Tame, Loses;
    forall s, n: nat | Appears(s, n, v) ensures Leads(w, s, n, 0, StoreFirst(w, v, r)) {
      assert Moved(w, s, n, Good, 0) == Stores(w, s, n, r, Good);
    }
    Goes(w, expiry, v, 0, StoreFirst(w, v, r));
  }

  /** It is good. */
  function Decide(v: View, r: Visible): View {
    v.(c := v.c.(phase := Sizing, results := [r]))
  }

  lemma DecideGoes(w: World, expiry: bool, v: View, r: Visible)
    requires Busy(w, expiry, v)
    requires v.c.phase == Deciding(r) && v.c.stderr == "" && r.exitCode == 0
    requires |v.held| == |v.c.ours| == 1 && v.held[0] in v.files
    ensures Busy(w, expiry, Decide(v, r))
  {
    hide Busy, Trim, PoolKeys, Quiet, Touches, Early, Keeps, Tame, Loses;
    forall s, n: nat | Appears(s, n, v) ensures Leads(w, s, n, 0, Decide(v, r)) {
    }
    Goes(w, expiry, v, 0, Decide(v, r));
  }

  /** The free permits are read. */
  function Size(v: View): View {
    var m := Min(v.free, |v.c.rest|);
    v.(c := v.c.(maxPar := m, phase := Filling(if m > 0 then m - 1 else 0)))
  }

  lemma SizeGoes(w: World, expiry: bool, v: View)
    requires Busy(w, expiry, v)
    requires v.c.phase.Sizing? && |v.held| == |v.c.ours| == 1 && v.held[0] in v.files
    ensures Busy(w, expiry, Size(v))
  {
    hide Busy, Trim, PoolKeys, Quiet, Touches, Early, Keeps, Tame, Loses;
    forall s, n: nat | Appears(s, n, v) ensures Leads(w, s, n, 0, Size(v)) {
    }
    Goes(w, expiry, v, 0, Size(v));
  }

  /** One more container is taken. */
  function Grow(v: View, left: nat): View
    requires v.rest != []
  {
    v.(c := v.c.(phase := Loading(left), ours := v.c.ours + [false]),
       rest := v.rest[..|v.rest| - 1], held := v.held + [v.rest[|v.rest| - 1]])
  }

  lemma GrowGoes(w: World, expiry: bool, v: View, left: nat)
    requires Busy(w, expiry, v)
    requires v.c.phase == Filling(left + 1) && v.rest != []
    ensures Busy(w, expiry, Grow(v, left))
  {
    hide Busy, Trim, PoolKeys, Quiet, Touches, Early, Keeps, Tame, Loses;
    forall s, n: nat | Appears(s, n, v) ensures Leads(w, s, n, 0, Grow(v, left)) {
      assert v.rest[|v.rest| - 1] in v.rest;
      assert Moved(w, s, n, Good, 0) == Grows(s, n, left);
    }
    Goes(w, expiry, v, 0, Grow(v, left));
  }

  /** The artifact is not found: the container is kept as it is. */
  function KeepIt(v: View, left: nat): View {
    v.(c := v.c.(phase := Filling(left), skipped := true))
  }

  lemma KeepItGoes(w: World, expiry: bool, v: View, left: nat)
    requires Busy(w, expiry, v)
    requires v.c.phase == Loading(left) && Compiled(ProgOf(v.c).lang) && v.held != []
    requires |v.c.ours| == |v.held| && !v.c.ours[|v.held| - 1] && v.held[|v.held| - 1] in v.files
    requires ArtifactHit(v.redis, ArtifactKey(w, ProgOf(v.c))).None?
    ensures Busy(w, expiry, KeepIt(v, left))
  {
    hide Busy, Trim, PoolKeys, ArtifactKey, Quiet, Touches, Early, Keeps, Tame, Loses;
    forall s, n: nat | Appears(s, n, v) ensures Leads(w, s, n, 0, KeepIt(v, left)) {
      assert v.c.ours[|v.held| - 1 := false] == v.c.ours;
      assert Moved(w, s, n, Good, 0) == Loads(w, s, n, left, Good);
    }
    Goes(w, expiry, v, 0, KeepIt(v, left));
  }

  /** A chunk begins. */
  function Begin(w: World, v: View, width: nat, count: nat): View {
    v.(c := v.c.(width := width, phase := Chunk(seq(count, _ => Idle))))
  }

  lemma BeginGoes(w: World, expiry: bool, v: View, width: nat, count: nat)
    requires Busy(w, expiry, v)
    requires v.c.phase == Filling(0) && Left(v.c) > 0 && v.held != []
    requires width == (if v.c.width == 0 then |v.held| else v.c.width) && count == Min(width, Left(v.c))
    ensures Busy(w, expiry, Begin(w, v, width, count))
  {
    hide Busy, Trim, PoolKeys, Quiet, Touches, Early, Keeps, Tame, Loses;
    forall s, n: nat | Appears(s, n, v) ensures Leads(w, s, n, 0, Begin(w, v, width, count)) {
    }
    Goes(w, expiry, v, 0, Begin(w, v, width, count));
  }

  /** A request of the chunk is not in the cache. */
  function MissSlot(v: View, slots: seq<Slot>, i: nat): View
    requires i < |slots|
  {
    v.(c := v.c.(phase := Chunk(slots[i := Missed])))
  }

  lemma MissSlotGoes(w: World, expiry: bool, v: View, slots: seq<Slot>, i: nat)
    requires Busy(w, expiry, v)
    requires InChunk(v, slots, i) && slots[i].Idle?
    requires ResultHit(v.redis, Key(w, v.c, |v.c.results| + i)).None?
    ensures Busy(w, expiry, MissSlot(v, slots, i))
  {
    hide Busy, Trim, PoolKeys, Key, Quiet, Touches, Early, Keeps, Tame, Loses;
    forall s, n: nat | Appears(s, n, v) ensures Leads(w, s, n, i, MissSlot(v, slots, i)) {
      assert !AllFinished(slots);
    }
    Goes(w, expiry, v, i, MissSlot(v, slots, i));
  }

  /** It is run; on a container not loaded that makes the program stale. */
  function RunSlot(v: View, slots: seq<Slot>, i: nat, r: Visible): View
    requires i < |slots| && i < |v.c.ours|
  {
    v.(c := v.c.(phase := Chunk(slots[i := Ran(r)])),
       stale := if v.c.runnable && !v.c.ours[i] then v.stale + {ProgOf(v.c)} else v.stale)
  }

  lemma RunSlotGoes(w: World, expiry: bool, v: View, slots: seq<Slot>, i: nat, r: Visible)
    requires Busy(w, expiry, v)
    requires InChunk(v, slots, i) && slots[i].Missed?
    requires v.held[i] in v.files && RunOf(w, v.c, |v.c.results| + i, v.files[v.held[i]]) == Some(r)
    ensures Busy(w, expiry, RunSlot(v, slots, i, r))
  {
    hide Busy, Trim, PoolKeys, RunOf, Quiet, Touches, Early, Keeps, Tame, Loses;
    Shares.SmallMod(i, |v.held|);
    forall s, n: nat | Appears(s, n, v) ensures Leads(w, s, n, i, RunSlot(v, slots, i, r)) {
      assert !AllFinished(slots);
      assert BoxOf(s, n, i) == i;
    }
    Goes(w, expiry, v, i, RunSlot(v, slots, i, r));
  }

  /** Its result is stored if it has no stderr. */
  function StoreSlot(w: World, v: View, slots: seq<Slot>, i: nat, r: Visible): View
    requires i < |slots| && |v.c.results| + i < Count(v.c)
  {
    v.(c := v.c.(phase := Chunk(slots[i := Got(r)])),
       redis := StoredIn(w, v.redis, v.c, |v.c.results| + i, r))
  }

  lemma StoreSlotGoes(w: World, expiry: bool, v: View, slots: seq<Slot>, i: nat, r: Visible)
    requires Busy(w, expiry, v)
    requires InChunk(v, slots, i) && slots[i] == Ran(r)
    ensures Busy(w, expiry, StoreSlot(w, v, slots, i, r))
  {
    hide Busy, Trim, PoolKeys, Key, Quiet, Touches, Early, Keeps, Tame, Loses;
    forall s, n: nat | Appears(s, n, v) ensures Leads(w, s, n, i, StoreSlot(w, v, slots, i, r)) {
      assert !AllFinished(slots);
      assert Moved(w, s, n, Good, i) == Slots(w, s, n, slots, i, Good);
    }
    Goes(w, expiry, v, i, StoreSlot(w, v, slots, i, r));
  }

  /** All requests of the chunk have their results. */
  function Join(v: View, slots: seq<Slot>, results: seq<Visible>): View {
    v.(c := v.c.(results := results,
                 phase := if |results| < Count(v.c) then Draining else Finishing(Ok(results))))
  }

  lemma JoinGoes(w: World, expiry: bool, v: View, slots: seq<Slot>, results: seq<Visible>)
    requires Busy(w, expiry, v)
    requires v.c.phase == Chunk(slots) && v.held != [] && |results| == |v.c.results| + |slots| <= Count(v.c)
    requires results[..|v.c.results|] == v.c.results
    requires forall i :: 0 <= i < |slots| ==> slots[i] == Got(results[|v.c.results| + i])
    ensures Busy(w, expiry, Join(v, slots, results))
  {
    hide Busy, Trim, PoolKeys, Quiet, Touches, Early, Keeps, Tame, Loses;
    forall s, n: nat | Appears(s, n, v) ensures Leads(w, s, n, 0, Join(v, slots, results)) {
      assert Joins(s, n, slots).calls[n].results == results;
      assert AllFinished(slots);
      assert Broken !in slots;
    }
    Goes(w, expiry, v, 0, Join(v, slots, results));
  }

  /** A container is handed back. */
  function GiveBack(v: View): View
    requires v.c.ours != [] && v.held != []
  {
    v.(c := v.c.(ours := v.c.ours[1..]), rest := v.rest + [v.held[0]], held := v.held[1..])
  }

  lemma ReturnAppears(v: View, s: State, n: nat)
    requires (v.c.phase.Draining? || v.c.phase.Finishing?) && v.held != [] && v.c.ours != [] && Appears(s, n, v)
    ensures Has(s, n, 1) && s.calls[n] == v.c && s.cu.held[n] != [] && Appears(Returns(s, n), n, GiveBack(v))
  {
    hide Trim, PoolKeys, Quiet, Touches, Early, Keeps, Tame, Loses;
    assert v.held[0] in v.held;
  }

  lemma GiveBackGoes(w: World, expiry: bool, v: View)
    requires Busy(w, expiry, v)
    requires (v.c.phase.Draining? || v.c.phase.Finishing?) && v.held != [] && v.c.ours != []
    ensures Busy(w, expiry, GiveBack(v))
  {
    hide Busy, Trim, PoolKeys, Quiet, Touches, Early, Keeps, Tame, Loses, Appears;
    forall s, n: nat | Appears(s, n, v) ensures Leads(w, s, n, 0, GiveBack(v)) {
      ReturnAppears(v, s, n);
      assert Moved(w, s, n, Good, 0) == Returns(s, n);
    }
    Goes(w, expiry, v, 0, GiveBack(v));
  }

  /** All are handed back before the next chunk. */
  function Refill(v: View): View {
    v.(c := v.c.(phase := Filling(v.c.maxPar)))
  }

  lemma RefillGoes(w: World, expiry: bool, v: View)
    requires Busy(w, expiry, v)
    requires v.c.phase.Draining? && v.held == []
    ensures Busy(w, expiry, Refill(v))
  {
    hide Busy, Trim, PoolKeys, Quiet, Touches, Early, Keeps, Tame, Loses;
    forall s, n: nat | Appears(s, n, v) ensures Leads(w, s, n, 0, Refill(v)) {
    }
    Goes(w, expiry, v, 0, Refill(v));
  }

  // ---------------------------------------------------------------- whole calls

  /** A call comes in and gets the permit. */
  function Entered(s: State, c: Call): State
    requires s.cu.permits > 0
  {
    Waits(s.(calls := s.calls + [c]), |s.calls|)
  }

  lemma EnterAppears(w: World, s: State, c: Call, free: nat, stack: seq<nat>, files: map<nat, Files>,
          redis: map<string, Entry>, stale: set<Prog>)
    requires c == NewCall(c.kind, c.first, c.rest) && !c.kind.Handled? && free > 0
    requires Rests(s, free, KeyOf(ProgOf(c)), stack, files, redis, stale)
    ensures Appears(Entered(s, c), |s.calls|, View(c.(phase := Admitted), free - 1, stack, [], files, redis, stale))
  {
    hide Trim, PoolKeys, Quiet, Touches, Early, Keeps, Tame, Loses;
  }

  lemma EnterGoes(w: World, expiry: bool, c: Call, free: nat, stack: seq<nat>, files: map<nat, Files>,
          redis: map<string, Entry>, stale: set<Prog>)
    requires c == NewCall(c.kind, c.first, c.rest) && !c.kind.Handled? && (c.kind.Direct? ==> c.rest == []) && free > 0
    requires AtRest(w, expiry, free, KeyOf(ProgOf(c)), stack, files, redis, stale)
    ensures Busy(w, expiry, View(c.(phase := Admitted), free - 1, stack, [], files, redis, stale))
  {
    hide Smooth, Trim, PoolKeys, Appears, Quiet, Touches, Early, Keeps, Tame, Loses;
    var s :| Smooth(w, s, expiry) && Rests(s, free, KeyOf(ProgOf(c)), stack, files, redis, stale);
    var s1 := s.(calls := s.calls + [c]);
    EnterAppears(w, s, c, free, stack, files, redis, stale);
    SmoothStep(w, s, Spawn(c.kind, c.first, c.rest), expiry);
    SmoothStep(w, s1, Act(|s.calls|, Good, 0), expiry);
    assert Moved(w, s1, |s.calls|, Good, 0) == Entered(s, c);
  }

  lemma EndAppears(s: State, n: nat, v: View, out: Outcome)
    requires Appears(s, n, v) && v.c.phase == Finishing(out) && v.held == []
    ensures Has(s, n, 0) && s.cu.held[n] == [] && Finishes(s, n, out).calls[n] == v.c.(phase := Done(out))
    ensures Rests(Finishes(s, n, out), v.free + 1, KeyOf(ProgOf(v.c)), v.rest, v.files, v.redis, v.stale)
    ensures s.calls[n] == v.c && n < |Finishes(s, n, out).calls| && Finishes(s, n, out).stale == v.stale
  {
    hide Trim, PoolKeys, Quiet, Touches, Early, Keeps, Tame, Loses;
    assert Finishes(s, n, out).cu.held == map[];
  }

  /** A call without containers ends. */
  lemma EndGoes(w: World, expiry: bool, v: View, out: Outcome)
    requires Busy(w, expiry, v) && v.c.phase == Finishing(out) && v.held == []
    ensures AtRest(w, expiry, v.free + 1, KeyOf(ProgOf(v.c)), v.rest, v.files, v.redis, v.stale)
    ensures Over(w, expiry, v.c.kind, v.c.first, v.c.rest, out, v.stale)
  {
    hide Smooth, Trim, PoolKeys, Appears, Rests, Finishes, Quiet, Touches, Early, Keeps, Tame, Loses;
    var s, n: nat :| Smooth(w, s, expiry) && Appears(s, n, v);
    EndAppears(s, n, v, out);
    SmoothStep(w, s, Act(n, Good, 0), expiry);
    assert Moved(w, s, n, Good, 0) == Finishes(s, n, out);
    assert Ended(Finishes(s, n, out), n, v.c.kind, v.c.first, v.c.rest, out);
  }

  /** There is no container for the next chunk. */
  lemma StarveGoes(w: World, expiry: bool, v: View)
    requires Busy(w, expiry, v) && v.c.phase == Filling(0) && Left(v.c) > 0 && v.held == []
    ensures Over(w, expiry, v.c.kind, v.c.first, v.c.rest, Fault, v.stale)
  {
    hide Smooth, Trim, PoolKeys, Quiet, Touches, Early, Keeps, Tame, Loses;
    var s, n: nat :| Smooth(w, s, expiry) && Appears(s, n, v);
    SmoothStep(w, s, Act(n, Good, 0), expiry);
    assert Moved(w, s, n, Good, 0) == Begins(s, n);
    assert Ended(Begins(s, n), n, v.c.kind, v.c.first, v.c.rest, Fault);
  }

  /** An empty command without stdin is refused: the call ends, and its container is lost. */
  lemma RefuseGoes(w: World, expiry: bool, v: View)
    requires Busy(w, expiry, v) && v.c.phase.Running? && |v.held| == |v.c.ours| == 1 && v.held[0] in v.files
    requires RunOf(w, v.c, 0, v.files[v.held[0]]).None?
    ensures OverWithout(w, expiry, v.c.kind, v.c.first, v.c.rest, v.held[0])
  {
    hide Smooth, Trim, PoolKeys, RunOf, Quiet, Touches, Early, Keeps, Tame, Loses;
    var s, n: nat :| Smooth(w, s, expiry) && Appears(s, n, v);
    SmoothStep(w, s, Act(n, Good, 0), expiry);
    var s' := RunsFirst(w, s, n, Good);
    assert Moved(w, s, n, Good, 0) == s';
    assert Ended(s', n, v.c.kind, v.c.first, v.c.rest, Err) && v.held[0] in s'.cu.lost;
  }

  /** An entry expires. */
  lemma ExpireGoes(w: World, v: View, key: string)
    requires Busy(w, true, v)
    ensures Busy(w, true, v.(redis := v.redis - {key}))
  {
    hide Smooth, Trim, PoolKeys;
    var s, n: nat :| Smooth(w, s, true) && Appears(s, n, v);
    SmoothStep(w, s, Evict(key), true);
    assert Appears(Step(w, s, Evict(key)), n, v.(redis := v.redis - {key}));
  }

  /** An entry expires while no call is in flight. */
  lemma ExpireRest(w: World, free: nat, key: string, stack: seq<nat>, files: map<nat, Files>,
          redis: map<string, Entry>, stale: set<Prog>, entry: string)
    requires AtRest(w, true, free, key, stack, files, redis, stale)
    ensures AtRest(w, true, free, key, stack, files, redis - {entry}, stale)
  {
    hide Smooth, Trim, PoolKeys;
    var s :| Smooth(w, s, true) && Rests(s, free, key, stack, files, redis, stale);
    SmoothStep(w, s, Evict(entry), true);
    assert Rests(Step(w, s, Evict(entry)), free, key, stack, files, redis - {entry}, stale);
  }

  lemma EarlyHit(w: World, s: State, n: nat, v: Visible)
    requires n < |s.calls| && s.calls[n].phase.Looking? && n !in s.cu.held
    requires ResultHit(s.redis, EarlyKey(w, s.calls[n].first)) == Some(v)
    ensures Ready(s, n, 0) && Moved(w, s, n, Good, 0) == To(s, n, Done(Ok([v])))
  {
    hide EarlyKey, PoolKeys, Quiet, Touches, Early, Keeps, Tame, Loses;
  }

  /** The early lookup of a handled request finds a result. */
  lemma EarlyGoes(w: World, expiry: bool, r: Request, v: Visible, free: nat, key: string, stack: seq<nat>,
          files: map<nat, Files>, redis: map<string, Entry>, stale: set<Prog>)
    requires AtRest(w, expiry, free, key, stack, files, redis, stale) && ResultHit(redis, EarlyKey(w, r)) == Some(v)
    ensures Over(w, expiry, Handled, r, [], Ok([v]), stale)
  {
    hide Smooth, EarlyKey, Moved, Ready, ResultHit, PoolKeys;
    var s :| Smooth(w, s, expiry) && Rests(s, free, key, stack, files, redis, stale);
    var c := NewCall(Handled, r, []);
    var s1, n := s.(calls := s.calls + [c]), |s.calls|;
    SmoothStep(w, s, Spawn(Handled, r, []), expiry);
    EarlyHit(w, s1, n, v);
    SmoothStep(w, s1, Act(n, Good, 0), expiry);
    assert Ended(To(s1, n, Done(Ok([v]))), n, Handled, r, [], Ok([v]));
  }

  /** The files of a container after the source was written there. */
  function Sourced(p: Prog, files: Files): Files {
    files[SourceFile(p.lang) := p.code]
  }

  /** The files of the container taken last after the source was written there. */
  function LoadedTop(p: Prog, stack: seq<nat>, files: map<nat, Files>): map<nat, Files>
    requires stack != [] && stack[|stack| - 1] in files
  {
    var box := stack[|stack| - 1];
    files[box := Sourced(p, files[box])]
  }

  /** A call of an interpreted program has taken its first container. */
  function Opened(c: Call, free: nat, stack: seq<nat>, files: map<nat, Files>, redis: map<string, Entry>,
          stale: set<Prog>): View
    requires stack != []
  {
    View(c.(phase := Lookup, runnable := true, stderr := "", ours := [false]), free, stack[..|stack| - 1],
         [stack[|stack| - 1]], files, redis, stale)
  }

  lemma OpenedGoes(w: World, expiry: bool, c: Call, free: nat, stack: seq<nat>, files: map<nat, Files>,
          redis: map<string, Entry>, stale: set<Prog>)
    requires c == NewCall(c.kind, c.first, c.rest) && !c.kind.Handled? && (c.kind.Direct? ==> c.rest == []) && free > 0
    requires Interpreted(ProgOf(c).lang) && Accepted(c) && stack != []
    requires AtRest(w, expiry, free, KeyOf(ProgOf(c)), stack, files, redis, stale)
    ensures Busy(w, expiry, Opened(c, free - 1, stack, files, redis, stale))
  {
    hide Busy, Trim, ResultKey, Output, PoolKeys;
    EnterGoes(w, expiry, c, free, stack, files, redis, stale);
    OpenGoes(w, expiry, View(c.(phase := Admitted), free - 1, stack, [], files, redis, stale));
  }

  /** Its first result was not in the cache, and the source is written. */
  function Prepared(c: Call, free: nat, stack: seq<nat>, files: map<nat, Files>, redis: map<string, Entry>,
          stale: set<Prog>): View
    requires stack != [] && stack[|stack| - 1] in files
  {
    View(c.(phase := Running, runnable := true, stderr := "", ours := [true]), free, stack[..|stack| - 1],
         [stack[|stack| - 1]], LoadedTop(ProgOf(c), stack, files), redis, stale)
  }

  lemma PreparedGoes(w: World, expiry: bool, c: Call, free: nat, stack: seq<nat>, files: map<nat, Files>,
          redis: map<string, Entry>, stale: set<Prog>)
    requires stack != [] && Busy(w, expiry, Opened(c, free, stack, files, redis, stale))
    requires Interpreted(ProgOf(c).lang)
    requires stack[|stack| - 1] in files && ResultHit(redis, Key(w, c, 0)).None?
    ensures Busy(w, expiry, Prepared(c, free, stack, files, redis, stale))
  {
    hide Busy, Trim, ResultKey, PoolKeys;
    var v := Opened(c, free, stack, files, redis, stale);
    MissGoes(w, expiry, v);
    WriteGoes(w, expiry, Miss(v));
  }

  /** And its first request has been run. */
  function RanFirst(w: World, c: Call, r: Visible, free: nat, stack: seq<nat>, files: map<nat, Files>,
          redis: map<string, Entry>, stale: set<Prog>): View
    requires stack != [] && stack[|stack| - 1] in files
  {
    View(c.(phase := if c.kind.Batch? then Deciding(r) else Finishing(Ok([r])), runnable := true, stderr := "",
            ours := [true]),
         free, stack[..|stack| - 1], [stack[|stack| - 1]], LoadedTop(ProgOf(c), stack, files),
         StoredIn(w, redis, c, 0, r), stale)
  }

  lemma RanFirstGoes(w: World, expiry: bool, c: Call, r: Visible, free: nat, stack: seq<nat>, files: map<nat, Files>,
          redis: map<string, Entry>, stale: set<Prog>)
    requires stack != [] && stack[|stack| - 1] in files
    requires Busy(w, expiry, Prepared(c, free, stack, files, redis, stale))
    requires RunOf(w, c.(runnable := true), 0, Sourced(ProgOf(c), files[stack[|stack| - 1]])) == Some(r)
    ensures Busy(w, expiry, RanFirst(w, c, r, free, stack, files, redis, stale))
  {
    hide Busy, Trim, ResultKey, Output, PoolKeys;
    var v := Prepared(c, free, stack, files, redis, stale);
    RunFirstGoes(w, expiry, v, r);
    StoreFirstGoes(w, expiry, RunFirst(v, r), r);
  }

  /** A call that comes in at rest, and whose first result is not in the cache, runs its first request. */
  lemma FirstGoes(w: World, expiry: bool, c: Call, r: Visible, free: nat, stack: seq<nat>, files: map<nat, Files>,
          redis: map<string, Entry>, stale: set<Prog>)
    requires c == NewCall(c.kind, c.first, c.rest) && !c.kind.Handled? && (c.kind.Direct? ==> c.rest == []) && free > 0
    requires Interpreted(ProgOf(c).lang) && Accepted(c) && stack != []
    requires AtRest(w, expiry, free, KeyOf(ProgOf(c)), stack, files, redis, stale)
    requires stack[|stack| - 1] in files && ResultHit(redis, Key(w, c, 0)).None?
    requires RunOf(w, c.(runnable := true), 0, Sourced(ProgOf(c), files[stack[|stack| - 1]])) == Some(r)
    ensures Busy(w, expiry, RanFirst(w, c, r, free - 1, stack, files, redis, stale))
  {
    hide Busy, Trim, Key, RunOf, Sourced, Interpreted, Accepted, NewCall, Opened, Prepared, RanFirst, PoolKeys;
    OpenedGoes(w, expiry, c, free, stack, files, redis, stale);
    PreparedGoes(w, expiry, c, free - 1, stack, files, redis, stale);
    RanFirstGoes(w, expiry, c, r, free - 1, stack, files, redis, stale);
  }

  lemma SoloEnds(w: World, expiry: bool, c: Call, r: Visible, free: nat, stack: seq<nat>, files: map<nat, Files>,
          redis: map<string, Entry>, stale: set<Prog>)
    requires c.kind.Direct? && stack != [] && stack[|stack| - 1] in files
    requires Busy(w, expiry, RanFirst(w, c, r, free, stack, files, redis, stale))
    ensures AtRest(w, expiry, free + 1, KeyOf(ProgOf(c)), stack, LoadedTop(ProgOf(c), stack, files),
                   StoredIn(w, redis, c, 0, r), stale)
  {
    hide Busy, Trim, StoredIn, LoadedTop, PoolKeys;
    var v := RanFirst(w, c, r, free, stack, files, redis, stale);
    GiveBackGoes(w, expiry, v);
    EndGoes(w, expiry, GiveBack(v), Ok([r]));
    assert GiveBack(v).rest == stack;
  }

  /** `execute` on its own leaves an interpreted program in the container and its result in the cache. */
  lemma Solo(w: World, expiry: bool, c: Call, r: Visible, free: nat, stack: seq<nat>, files: map<nat, Files>,
          redis: map<string, Entry>, stale: set<Prog>)
    requires c == NewCall(Direct, c.first, []) && Interpreted(ProgOf(c).lang) && free > 0 && stack != []
    requires AtRest(w, expiry, free, KeyOf(ProgOf(c)), stack, files, redis, stale)
    requires stack[|stack| - 1] in files && ResultHit(redis, Key(w, c, 0)).None?
    requires RunOf(w, c.(runnable := true), 0, Sourced(ProgOf(c), files[stack[|stack| - 1]])) == Some(r)
    ensures AtRest(w, expiry, free, KeyOf(ProgOf(c)), stack, LoadedTop(ProgOf(c), stack, files),
                   StoredIn(w, redis, c, 0, r), stale)
  {
    hide Busy, Trim, Key, RunOf, Sourced, RanFirst, LoadedTop, StoredIn, PoolKeys;
    FirstGoes(w, expiry, c, r, free, stack, files, redis, stale);
    SoloEnds(w, expiry, c, r, free - 1, stack, files, redis, stale);
  }

  /** A batch whose first result is good reads the permits. */
  function Measured(v: View, r: Visible): View {
    var m := Min(v.free, |v.c.rest|);
    v.(c := v.c.(results := [r], maxPar := m, phase := Filling(if m > 0 then m - 1 else 0)))
  }

  lemma MeasuredGoes(w: World, expiry: bool, v: View, r: Visible)
    requires Busy(w, expiry, v)
    requires v.c.phase == Deciding(r) && v.c.stderr == "" && r.exitCode == 0
    requires |v.held| == |v.c.ours| == 1 && v.held[0] in v.files
    ensures Busy(w, expiry, Measured(v, r))
  {
    hide Busy, Trim, PoolKeys;
    DecideGoes(w, expiry, v, r);
    SizeGoes(w, expiry, Decide(v, r));
  }

  /** A request of the chunk that is not in the cache is run and its result stored. */
  function Answer(w: World, v: View, slots: seq<Slot>, i: nat, r: Visible): View
    requires i < |slots| && i < |v.c.ours| && |v.c.results| + i < Count(v.c)
  {
    v.(c := v.c.(phase := Chunk(slots[i := Got(r)])),
       redis := StoredIn(w, v.redis, v.c, |v.c.results| + i, r),
       stale := if v.c.runnable && !v.c.ours[i] then v.stale + {ProgOf(v.c)} else v.stale)
  }

  lemma TriedGoes(w: World, expiry: bool, v: View, slots: seq<Slot>, i: nat, r: Visible)
    requires Busy(w, expiry, v) && InChunk(v, slots, i) && slots[i].Idle?
    requires ResultHit(v.redis, Key(w, v.c, |v.c.results| + i)).None?
    requires v.held[i] in v.files && RunOf(w, v.c, |v.c.results| + i, v.files[v.held[i]]) == Some(r)
    ensures Busy(w, expiry, RunSlot(v, slots, i, r))
  {
    hide Trim, ResultKey, Output, Busy, PoolKeys;
    var slots1 := slots[i := Missed];
    MissSlotGoes(w, expiry, v, slots, i);
    RunSlotGoes(w, expiry, MissSlot(v, slots, i), slots1, i, r);
    assert slots1[i := Ran(r)] == slots[i := Ran(r)];
    assert RunSlot(MissSlot(v, slots, i), slots1, i, r) == RunSlot(v, slots, i, r);
  }

  lemma AnswerGoes(w: World, expiry: bool, v: View, slots: seq<Slot>, i: nat, r: Visible)
    requires Busy(w, expiry, v) && InChunk(v, slots, i) && slots[i].Idle?
    requires ResultHit(v.redis, Key(w, v.c, |v.c.results| + i)).None?
    requires v.held[i] in v.files && RunOf(w, v.c, |v.c.results| + i, v.files[v.held[i]]) == Some(r)
    ensures Busy(w, expiry, Answer(w, v, slots, i, r))
  {
    hide Trim, ResultKey, Output, RunOf, Busy, PoolKeys;
    var slots1 := slots[i := Ran(r)];
    TriedGoes(w, expiry, v, slots, i, r);
    StoreSlotGoes(w, expiry, RunSlot(v, slots, i, r), slots1, i, r);
    assert slots1[i := Got(r)] == slots[i := Got(r)];
    assert StoreSlot(w, RunSlot(v, slots, i, r), slots1, i, r) == Answer(w, v, slots, i, r);
  }

  /** A chunk of one request: the second one. */
  function Seconded(w: World, v: View, r: Visible): View
    requires |v.c.results| == 1 && |v.c.ours| == 1 && v.c.rest != []
  {
    var results := v.c.results + [r];
    v.(c := v.c.(width := 1, results := results,
                 phase := if |results| < Count(v.c) then Draining else Finishing(Ok(results))),
       redis := StoredIn(w, v.redis, v.c, 1, r),
       stale := if v.c.runnable && !v.c.ours[0] then v.stale + {ProgOf(v.c)} else v.stale)
  }

  lemma SecondedGoes(w: World, expiry: bool, v: View, r: Visible)
    requires Busy(w, expiry, v) && v.c.phase == Filling(0) && v.c.width == 0 && |v.c.results| == 1 && v.c.rest != []
    requires |v.held| == |v.c.ours| == 1 && v.held[0] in v.files
    requires ResultHit(v.redis, Key(w, v.c, 1)).None? && RunOf(w, v.c, 1, v.files[v.held[0]]) == Some(r)
    ensures Busy(w, expiry, Seconded(w, v, r))
  {
    hide Busy, Trim, ResultKey, Output, PoolKeys;
    var v1 := Begin(w, v, 1, 1);
    BeginGoes(w, expiry, v, 1, 1);
    assert v1.c.phase == Chunk([Idle]);
    AnswerGoes(w, expiry, v1, [Idle], 0, r);
    assert [Idle][0 := Got(r)] == [Got(r)];
    JoinGoes(w, expiry, Answer(w, v1, [Idle], 0, r), [Got(r)], v.c.results + [r]);
  }

  /** A call that is finishing hands back what it holds and ends. */
  lemma {:induction false} EndsGoes(w: World, expiry: bool, v: View, out: Outcome)
    requires Busy(w, expiry, v) && v.c.phase == Finishing(out) && |v.held| == |v.c.ours|
    ensures Over(w, expiry, v.c.kind, v.c.first, v.c.rest, out, v.stale)
    decreases |v.held|
  {
    hide Busy, Over, Trim, PoolKeys;
    if v.held == [] {
      EndGoes(w, expiry, v, out);
    } else {
      GiveBackGoes(w, expiry, v);
      EndsGoes(w, expiry, GiveBack(v), out);
    }
  }

  /** A batch of two that finds its first result in the cache runs the second request on what the container has. */
  lemma PairGoes(w: World, expiry: bool, c: Call, r: Visible, r2: Visible, free: nat, stack: seq<nat>,
          files: map<nat, Files>, redis: map<string, Entry>)
    requires c == NewCall(Kind.Batch, c.first, c.rest) && |c.rest| == 1 && free > 0
    requires Interpreted(ProgOf(c).lang) && Accepted(c) && stack != []
    requires AtRest(w, expiry, free, KeyOf(ProgOf(c)), stack, files, redis, {})
    requires stack[|stack| - 1] in files && ResultHit(redis, Key(w, c, 0)) == Some(r) && r.exitCode == 0
    requires ResultHit(redis, Key(w, c, 1)).None?
    requires RunOf(w, c.(runnable := true), 1, files[stack[|stack| - 1]]) == Some(r2)
    ensures Over(w, expiry, Kind.Batch, c.first, c.rest, Ok([r, r2]), {ProgOf(c)})
  {
    hide Busy, Over, Trim, ResultKey, Output, PoolKeys;
    var v := Opened(c, free - 1, stack, files, redis, {});
    OpenedGoes(w, expiry, c, free, stack, files, redis, {});
    FindGoes(w, expiry, v, r);
    MeasuredGoes(w, expiry, Find(v, r), r);
    SecondedGoes(w, expiry, Measured(Find(v, r), r), r2);
    var v2 := Seconded(w, Measured(Find(v, r), r), r2);
    assert v2.c.results == [r, r2];
    EndsGoes(w, expiry, v2, Ok([r, r2]));
    assert {} + {ProgOf(c)} == {ProgOf(c)};
  }

  /** A batch of three or more with the only permit runs two requests and has no container for the third. */
  lemma StarvedGoes(w: World, expiry: bool, c: Call, r: Visible, r2: Visible, stack: seq<nat>,
          files: map<nat, Files>, redis: map<string, Entry>, stale: set<Prog>)
    requires c == NewCall(Kind.Batch, c.first, c.rest) && |c.rest| >= 2 && stack != []
    requires stack[|stack| - 1] in files && r.exitCode == 0
    requires Busy(w, expiry, RanFirst(w, c, r, 0, stack, files, redis, stale))
    requires ResultHit(StoredIn(w, redis, c, 0, r), Key(w, c, 1)).None?
    requires RunOf(w, c.(runnable := true), 1, Sourced(ProgOf(c), files[stack[|stack| - 1]])) == Some(r2)
    ensures Over(w, expiry, Kind.Batch, c.first, c.rest, Fault, stale)
  {
    hide Busy, Over, Trim, ResultKey, StoredIn, Output, Sourced, PoolKeys;
    var v := RanFirst(w, c, r, 0, stack, files, redis, stale);
    MeasuredGoes(w, expiry, v, r);
    SecondedGoes(w, expiry, Measured(v, r), r2);
    var v2 := Seconded(w, Measured(v, r), r2);
    GiveBackGoes(w, expiry, v2);
    RefillGoes(w, expiry, GiveBack(v2));
    StarveGoes(w, expiry, Refill(GiveBack(v2)));
  }

  // ---------------------------------------------------------------- batches of compiled programs

  /** The call has its first container and no artifact. */
  function Building(c: Call, free: nat, stack: seq<nat>, files: map<nat, Files>, redis: map<string, Entry>,
          stale: set<Prog>): View
    requires stack != []
  {
    View(c.(phase := Compiling, runnable := true, stderr := "", ours := [false]), free, stack[..|stack| - 1],
         [stack[|stack| - 1]], files, redis, stale)
  }

  lemma BuildingGoes(w: World, expiry: bool, c: Call, free: nat, stack: seq<nat>, files: map<nat, Files>,
          redis: map<string, Entry>, stale: set<Prog>)
    requires c == NewCall(c.kind, c.first, c.rest) && !c.kind.Handled? && (c.kind.Direct? ==> c.rest == []) && free > 0
    requires Compiled(ProgOf(c).lang)
    requires stack != [] && stack[|stack| - 1] in files && ArtifactHit(redis, ArtifactKey(w, ProgOf(c))).None?
    requires AtRest(w, expiry, free, KeyOf(ProgOf(c)), stack, files, redis, stale)
    ensures Busy(w, expiry, Building(c, free - 1, stack, files, redis, stale))
  {
    hide Busy, AtRest, Trim, ArtifactKey, PoolKeys;
    var v := View(c.(phase := Admitted), free - 1, stack, [], files, redis, stale);
    EnterGoes(w, expiry, c, free, stack, files, redis, stale);
    OpenGoes(w, expiry, v);
    MissArtifactGoes(w, expiry, Open(v));
  }

  /** A batch whose build fails, without stdin, ends with an error, and its container is lost. */
  lemma UnbuiltGoes(w: World, expiry: bool, c: Call, e: string, free: nat, stack: seq<nat>, files: map<nat, Files>,
          redis: map<string, Entry>, stale: set<Prog>)
    requires c == NewCall(Kind.Batch, c.first, c.rest) && free > 0 && Compiled(ProgOf(c).lang)
    requires stack != [] && stack[|stack| - 1] in files && ArtifactHit(redis, ArtifactKey(w, ProgOf(c))).None?
    requires AtRest(w, expiry, free, KeyOf(ProgOf(c)), stack, files, redis, stale)
    requires BuildIn(w, ProgOf(c), files[stack[|stack| - 1]]) == Rejected(e) && c.first.stdin.None?
    requires ResultHit(redis, Key(w, c, 0)).None?
    ensures OverWithout(w, expiry, Kind.Batch, c.first, c.rest, stack[|stack| - 1])
  {
    hide Busy, AtRest, OverWithout, Trim, ArtifactKey, ResultKey, BuildIn, Scripted, PoolKeys;
    BuildingGoes(w, expiry, c, free, stack, files, redis, stale);
    var v := Building(c, free - 1, stack, files, redis, stale);
    RejectGoes(w, expiry, v, e);
    MissGoes(w, expiry, Reject(w, v, e));
    RefuseGoes(w, expiry, Miss(Reject(w, v, e)));
  }

  /** The program is built and its artifact stored. */
  function CompiledTop(w: World, v: View, out: Files, b: string): View
    requires v.held != [] && v.held[0] in v.files && v.c.ours != []
  {
    v.(c := v.c.(phase := Lookup, ours := v.c.ours[0 := true]),
       files := v.files[v.held[0] := Scripted(w, ProgOf(v.c), v.files[v.held[0]]) + out],
       redis := v.redis[ArtifactKey(w, ProgOf(v.c)) := ArtifactEntry(ProgOf(v.c).code, b)])
  }

  lemma CompiledGoes(w: World, expiry: bool, v: View, out: Files, b: string)
    requires Busy(w, expiry, v) && v.c.phase.Compiling? && |v.held| == |v.c.ours| == 1 && v.held[0] in v.files
    requires BuildIn(w, ProgOf(v.c), v.files[v.held[0]]) == Built(out)
    requires Primary(ProgOf(v.c).lang) in out && out[Primary(ProgOf(v.c).lang)] == b != ""
    ensures Busy(w, expiry, CompiledTop(w, v, out, b))
  {
    hide Busy, Trim, ArtifactKey, BuildIn, Scripted, PoolKeys;
    BuildGoes(w, expiry, v, out);
    FetchGoes(w, expiry, Build(w, v, out), b);
  }

  /** Its first request is run and its result stored. */
  lemma CompiledFirstGoes(w: World, expiry: bool, v: View, r: Visible)
    requires Busy(w, expiry, v) && v.c.phase.Lookup? && Compiled(ProgOf(v.c).lang)
    requires |v.held| == |v.c.ours| == 1 && v.held[0] in v.files
    requires ResultHit(v.redis, Key(w, v.c, 0)).None? && RunOf(w, v.c, 0, v.files[v.held[0]]) == Some(r)
    ensures Busy(w, expiry, StoreFirst(w, v, r))
  {
    hide Busy, Trim, ResultKey, Output, PoolKeys;
    MissGoes(w, expiry, v);
    RunFirstGoes(w, expiry, Miss(v), r);
    StoreFirstGoes(w, expiry, RunFirst(Miss(v), r), r);
    assert StoreFirst(w, RunFirst(Miss(v), r), r) == StoreFirst(w, v, r);
  }

  /** One more container is taken and kept as it is: the artifact has expired. */
  function GrownUnloaded(w: World, v: View): View
    requires v.rest != []
  {
    v.(c := v.c.(phase := Filling(0), ours := v.c.ours + [false], skipped := true),
       rest := v.rest[..|v.rest| - 1], held := v.held + [v.rest[|v.rest| - 1]],
       redis := v.redis - {ArtifactKey(w, ProgOf(v.c))})
  }

  lemma GrownUnloadedGoes(w: World, v: View)
    requires Busy(w, true, v) && v.c.phase == Filling(1) && v.rest != [] && v.rest[|v.rest| - 1] in v.files
    requires Compiled(ProgOf(v.c).lang) && |v.c.ours| == |v.held|
    ensures Busy(w, true, GrownUnloaded(w, v))
  {
    hide Busy, Trim, ArtifactKey, PoolKeys;
    var v1 := Grow(v, 0);
    GrowGoes(w, true, v, 0);
    var v2 := v1.(redis := v1.redis - {ArtifactKey(w, ProgOf(v.c))});
    ExpireGoes(w, v1, ArtifactKey(w, ProgOf(v.c)));
    KeepItGoes(w, true, v2, 0);
    assert KeepIt(v2, 0) == GrownUnloaded(w, v);
  }

  /** A chunk of two, both run. */
  lemma TwoGoes(w: World, expiry: bool, v: View, r1: Visible, r2: Visible)
    requires Busy(w, expiry, v) && v.c.phase == Filling(0) && v.c.width == 0 && |v.c.results| == 1 && |v.c.rest| == 2
    requires |v.held| == |v.c.ours| == 2 && v.held[0] in v.files && v.held[1] in v.files && v.c.ours == [true, false]
    requires ResultHit(v.redis, Key(w, v.c, 1)).None? && RunOf(w, v.c, 1, v.files[v.held[0]]) == Some(r1)
    requires ResultHit(StoredIn(w, v.redis, v.c, 1, r1), Key(w, v.c, 2)).None?
    requires RunOf(w, v.c, 2, v.files[v.held[1]]) == Some(r2) && v.c.runnable
    ensures Over(w, expiry, v.c.kind, v.c.first, v.c.rest, Ok(v.c.results + [r1, r2]), v.stale + {ProgOf(v.c)})
  {
    hide Busy, Over, Trim, ResultKey, Output, PoolKeys;
    var v1 := Begin(w, v, 2, 2);
    BeginGoes(w, expiry, v, 2, 2);
    assert v1.c.phase == Chunk([Idle, Idle]);
    AnswerGoes(w, expiry, v1, [Idle, Idle], 0, r1);
    assert [Idle, Idle][0 := Got(r1)] == [Got(r1), Idle];
    var v2 := Answer(w, v1, [Idle, Idle], 0, r1);
    AnswerGoes(w, expiry, v2, [Got(r1), Idle], 1, r2);
    assert [Got(r1), Idle][1 := Got(r2)] == [Got(r1), Got(r2)];
    var v3 := Answer(w, v2, [Got(r1), Idle], 1, r2);
    JoinGoes(w, expiry, v3, [Got(r1), Got(r2)], v.c.results + [r1, r2]);
    EndsGoes(w, expiry, Join(v3, [Got(r1), Got(r2)], v.c.results + [r1, r2]), Ok(v.c.results + [r1, r2]));
  }

  // ---------------------------------------------------------------- `execute` of a compiled program

  /** A call that has one result and one container returns both. */
  lemma OneEnds(w: World, expiry: bool, v: View, out: Outcome)
    requires Busy(w, expiry, v) && v.c.phase == Finishing(out) && |v.held| == |v.c.ours| == 1
    ensures AtRest(w, expiry, v.free + 1, KeyOf(ProgOf(v.c)), v.rest + v.held, v.files, v.redis, v.stale)
    ensures Over(w, expiry, v.c.kind, v.c.first, v.c.rest, out, v.stale)
  {
    hide Busy, AtRest, Over, Trim, PoolKeys;
    GiveBackGoes(w, expiry, v);
    assert v.held == [v.held[0]];
    EndGoes(w, expiry, GiveBack(v), out);
  }

  /** The call has unpacked the artifact. */
  function Reused(w: World, c: Call, b: string, free: nat, stack: seq<nat>, files: map<nat, Files>,
          redis: map<string, Entry>, stale: set<Prog>): View
    requires stack != [] && stack[|stack| - 1] in files
  {
    var box := stack[|stack| - 1];
    View(c.(phase := Lookup, runnable := true, stderr := "", ours := [true]), free, stack[..|stack| - 1], [box],
         files[box := Unpacked(w, ProgOf(c), b, files[box])], redis, stale)
  }

  lemma ReusedGoes(w: World, expiry: bool, c: Call, b: string, free: nat, stack: seq<nat>, files: map<nat, Files>,
          redis: map<string, Entry>, stale: set<Prog>)
    requires c == NewCall(c.kind, c.first, c.rest) && !c.kind.Handled? && (c.kind.Direct? ==> c.rest == []) && free > 0
    requires Compiled(ProgOf(c).lang)
    requires stack != [] && stack[|stack| - 1] in files && ArtifactHit(redis, ArtifactKey(w, ProgOf(c))) == Some(b)
    requires AtRest(w, expiry, free, KeyOf(ProgOf(c)), stack, files, redis, stale)
    ensures Busy(w, expiry, Reused(w, c, b, free - 1, stack, files, redis, stale))
  {
    hide Busy, AtRest, Trim, ArtifactKey, Unpacked, PoolKeys;
    var v := View(c.(phase := Admitted), free - 1, stack, [], files, redis, stale);
    EnterGoes(w, expiry, c, free, stack, files, redis, stale);
    OpenGoes(w, expiry, v);
    FindArtifactGoes(w, expiry, Open(v), b);
    UploadGoes(w, expiry, FindArtifact(Open(v), b), b);
    assert [false][0 := true] == [true];
  }
}
