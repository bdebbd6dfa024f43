/**
 * What every reachable state of the engine satisfies, and that every event keeps it.
 */
module Invariants {
  import opened Options
  import opened Text
  import opened Platform
  import opened Keys
  import opened Store
  import opened Custody
  import opened Engine

  predicate HasPermit(ph: Phase) {
    !ph.Looking? && !ph.Waiting? && !ph.Done?
  }

  /** The call has its first container ready, or its build has failed. */
  predicate AfterLoad(ph: Phase) {
    ph.Lookup? || ph.Writing? || ph.Running? || ph.Storing? || ph.Deciding? || ph.Sizing?
    || ph.Filling? || ph.Loading? || ph.Chunk? || ph.Draining?
  }

  /** A call with one container. */
  predicate HasOne(ph: Phase) {
    ph.Artifact? || ph.Uploading? || ph.Compiling? || ph.Archiving? || ph.Lookup? || ph.Writing? || ph.Running?
    || ph.Storing? || ph.Deciding? || ph.Sizing?
  }

  /** The counts that belong to a phase. */
  predicate Counts(c: Call, h: seq<nat>) {
    var n, r, bound := Count(c), |c.results|, Max(1, c.maxPar);
    match c.phase
    case Looking => c.kind.Handled?
    case Waiting => true
    case Admitted => h == []
    case Filling(left) => |h| + left <= bound && 1 <= r <= n && (r == 1 ==> h != [])
    case Loading(left) => h != [] && |h| + left <= bound && 1 <= r <= n
    case Chunk(slots) => h != [] && 1 <= r && slots != [] && r + |slots| <= n
    case Draining => 2 <= r < n
    case Finishing(out) => !out.Fault? && (out.Ok? ==> |out.results| == n)
    case Done(out) => (out.Ok? ==> |out.results| == n) && (out.Fault? ==> n >= 3)
    case Sizing => |h| == 1 && r == 1
    case _ => |h| == 1
  }

  predicate Shape(w: World, s: State, id: nat)
    requires id < |s.calls|
  {
    var c, h := s.calls[id], HeldOf(s, id);
    && (HasPermit(c.phase) <==> id in s.cu.held)
    && |c.ours| == |h|
    && (forall x :: x in h ==> x in w.home && w.home[x] == KeyOf(ProgOf(c)))
    && Counts(c, h)
    && (!c.kind.Batch? ==> c.rest == [] && !Sized(c.phase) && !c.phase.Deciding? && !c.phase.Sizing?)
    && (HasOne(c.phase) || c.phase.Admitted? ==> id !in s.cu.par)
    && (Sized(c.phase) ==> id in s.cu.par && s.cu.par[id] == c.maxPar <= |c.rest|)
    && (c.phase.Artifact? || c.phase.Uploading? || c.phase.Compiling? || c.phase.Archiving? ==>
      Compiled(ProgOf(c).lang))
    && (c.phase.Writing? ==> !Compiled(ProgOf(c).lang))
  }

  /** What the call knows about its build is what the compiler says. */
  predicate BuildKnown(w: World, c: Call) {
    KnowsBuild(w, ProgOf(c), c.runnable, c.stderr) && (!c.kind.Batch? ==> c.stderr == "")
  }

  /** All containers but the one being loaded are loaded. */
  predicate AllOurs(c: Call) {
    forall i :: 0 <= i < (if c.phase.Loading? then |c.ours| - 1 else |c.ours|) ==> c.ours[i]
  }

  /** Which containers have been loaded when. */
  predicate LoadingKnown(w: World, c: Call) {
    var p, ph := ProgOf(c), c.phase;
    && (AfterLoad(ph) ==> BuildKnown(w, c))
    && (ph.Looking? || ph.Waiting? || ph.Admitted? ==> c.ours == [])
    && (ph.Artifact? || ph.Uploading? || ph.Compiling? ==> c.ours == [false])
    && (ph.Lookup? ==> c.ours == [Compiled(p.lang) && c.runnable])
    && (ph.Loading? ==> c.ours != [] && !c.ours[|c.ours| - 1])
    && (ph.Artifact? || ph.Uploading? || ph.Compiling? || ph.Archiving? ==> c.runnable && c.stderr == "")
    && (ph.Archiving? && Certain(p) ==> Runs(w, p))
    && (ph.Uploading? && Certain(p) ==> Runs(w, p) && BinaryOf(w, p, ph.binary))
    && (ph.Archiving? || ph.Running? || ph.Storing? ==> (c.runnable ==> c.ours != [] && c.ours[0]))
    && (ph.Deciding? || ph.Sizing? || Sized(ph) ==> (c.runnable && !c.skipped ==> AllOurs(c)))
  }

  predicate AllLoaded(w: World, p: Prog, h: seq<nat>, ours: seq<bool>, files: map<nat, Files>) {
    Whole(w, p) ==>
      forall i :: 0 <= i < |h| && i < |ours| && ours[i] ==> h[i] in files && Loaded(w, p, files[h[i]])
  }

  /** The containers that the call loaded still have its program, whatever other calls did meanwhile. */
  predicate Filled(w: World, s: State, id: nat)
    requires id < |s.calls|
  {
    AllLoaded(w, ProgOf(s.calls[id]), HeldOf(s, id), s.calls[id].ours, s.files)
  }

  /** What the container taken last has if it is kept. */
  function LeftFiles(s: State, id: nat, how: How): Files
    requires Has(s, id, 1)
  {
    if how.Soft? && !Compiled(ProgOf(s.calls[id]).lang) then how.left else s.files[Box(s, id, |s.cu.held[id]| - 1)]
  }

  /** While a build is being fetched, the container has all of it. */
  predicate BuiltHere(w: World, s: State, id: nat)
    requires id < |s.calls|
  {
    s.calls[id].phase.Archiving? && Certain(ProgOf(s.calls[id])) ==>
      HeldOf(s, id) != [] && HeldOf(s, id)[0] in s.files && Loaded(w, ProgOf(s.calls[id]), s.files[HeldOf(s, id)[0]])
  }

  function OriginOf(w: World, c: Call, k: nat): Origin
    requires k < Count(c)
  {
    Origin(ProgOf(c), LimitOf(w, c), Stdin(c, k))
  }

  /** A result about to be stored is what some run of the program showed. */
  ghost predicate FromRuns(w: World, c: Call) {
    var ph := c.phase;
    && (ph.Storing? ==> Shows(w, OriginOf(w, c, 0), ph.v))
    && (ph.Chunk? ==> forall i :: 0 <= i < |ph.slots| && ph.slots[i].Ran? ==>
          |c.results| + i < Count(c) && Shows(w, OriginOf(w, c, |c.results| + i), ph.slots[i].v))
  }

  /** The early lookup of the call used a limit no longer than its own. */
  predicate Patient(w: World, c: Call) {
    c.kind.Handled? && c.first.timeout.None? ==> w.second <= w.defaultTimeout
  }

  function Want(w: World, c: Call, k: nat): Visible
    requires k < Count(c)
  {
    Fresh(w, ProgOf(c), LimitOf(w, c), Stdin(c, k))
  }

  /** These first results are the ones wanted, and the first request, if answered, went well. */
  predicate RightSoFar(w: World, c: Call, results: seq<Visible>) {
    && |results| <= Count(c)
    && (forall k :: 0 <= k < |results| ==> results[k] == Want(w, c, k))
    && (results != [] ==> results[0].exitCode == 0)
  }

  /** The results so far are the ones wanted. */
  predicate SoFar(w: World, c: Call) {
    RightSoFar(w, c, c.results) && (c.results != [] ==> c.stderr == "")
  }

  predicate SlotsRight(w: World, c: Call, slots: seq<Slot>) {
    |c.results| + |slots| <= Count(c) &&
    forall i :: 0 <= i < |slots| ==> SlotRight(slots[i], Want(w, c, |c.results| + i))
  }

  /** What the call has in hand, and what it has returned, is what is wanted. */
  predicate Right(w: World, c: Call) {
    var ph := c.phase;
    && SoFar(w, c)
    && (ph.Storing? ==> (c.stderr == "" ==> ph.v == Want(w, c, 0)) && (c.stderr != "" ==> ph.v.stderr.Some?))
    && (ph.Deciding? ==> c.stderr == "" ==> ph.v == Want(w, c, 0))
    && (ph.Chunk? ==> SlotsRight(w, c, ph.slots))
    && (ph.Finishing? && ph.out.Ok? ==> ph.out.results == Expected(w, c))
    && (ph.Done? && ph.out.Ok? && Patient(w, c) ==> ph.out.results == Expected(w, c))
  }

  predicate SlotRight(slot: Slot, v: Visible) {
    (slot.Ran? || slot.Got?) ==> slot.v == v
  }

  /** Requests of one call with different stdin have different keys. */
  lemma KeysOfCall(w: World, c: Call, i: nat, j: nat)
    requires Digests(w) && KeyOf(ProgOf(c)) in PoolKeys() && i < Count(c) && j < Count(c) && Stdin(c, i) != Stdin(c, j)
    ensures Key(w, c, i) != Key(w, c, j)
  {
    hide PoolKeys, ResultKey;
    PoolKeyUnique(ProgOf(c).lang, ProgOf(c).ver);
    if Key(w, c, i) == Key(w, c, j) {
      ResultKeyUnique(w, Origin(ProgOf(c), LimitOf(w, c), Stdin(c, i)), ProgOf(c), LimitOf(w, c), Stdin(c, j));
    }
  }

  // ---------------------------------------------------------------- the store

  ghost predicate StoreOk(w: World, s: State) {
    StoreGood(w, s.stale, s.redis)
  }

  // ---------------------------------------------------------------- the whole

  /** Only a batch that kept a container unloaded makes its program stale. */
  ghost predicate StaleOk(s: State) {
    forall p :: p in s.stale ==> exists id :: 0 <= id < |s.calls| && Skipper(s.calls[id], p)
  }

  predicate Skipper(c: Call, p: Prog) {
    c.kind.Batch? && c.skipped && ProgOf(c) == p
  }

  ghost predicate CustodyOk(w: World, cu: Custody) {
    && Placed(cu, w.home) && Bounded(cu, w.total) && cu.pool.Keys == PoolKeys()
  }

  ghost predicate CallOk(w: World, s: State, id: nat)
    requires id < |s.calls|
  {
    && Shape(w, s, id)
    && LoadingKnown(w, s.calls[id])
    && Filled(w, s, id)
    && BuiltHere(w, s, id)
    && FromRuns(w, s.calls[id])
    && Unreported(w, s.stale, s.calls[id])
    && (Clean(w, s.stale, ProgOf(s.calls[id])) ==> Right(w, s.calls[id]))
  }

  /** A batch that has a result for its first request. */
  predicate Reported(ph: Phase) {
    ph.Storing? || ph.Deciding? || ph.Sizing? || Sized(ph) || (ph.Finishing? && ph.out.Ok?) || (ph.Done? && ph.out.Ok?)
  }

  /** The batch's build fails, and its first request has no stdin. */
  predicate Mute(w: World, c: Call) {
    c.kind.Batch? && FailsToBuild(w, ProgOf(c)) && c.first.stdin.None?
  }

  /** Such a batch gets no result at all, not even the build error. */
  predicate Unreported(w: World, stale: set<Prog>, c: Call) {
    Mute(w, c) && Clean(w, stale, ProgOf(c)) ==> !Reported(c.phase)
  }

  ghost predicate HoldersExist(s: State) {
    forall id :: id in s.cu.held ==> id < |s.calls|
  }

  ghost predicate Inv(w: World, s: State) {
    && CustodyOk(w, s.cu)
    && HoldersExist(s)
    && s.files.Keys == w.home.Keys
    && (forall id :: 0 <= id < |s.calls| ==> CallOk(w, s, id))
    && StoreOk(w, s)
    && StaleOk(s)
  }
}
