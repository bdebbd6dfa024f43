/**
 * The engine as a system of calls that interleave: `execute`, `execute` behind an early cache
 * lookup, and `execute_batch`. A call moves by one awaited operation at a time; between two moves
 * any other call may move, and any cache entry may vanish.
 */
module Engine {
  import opened Options
  import opened Text
  import opened Platform
  import opened Keys
  import opened Store
  import opened Custody

  datatype Request = Request(
    language: string, version: string, code: string, stdin: Option<string>, timeout: Option<nat>)

  /** Handled: `execute` behind the early lookup of handle_execute and of execute_parallel. */
  datatype Kind = Direct | Handled | Batch

  datatype Outcome = Ok(results: seq<Visible>) | Err | Fault

  /** One request of a chunk: waiting, missed in the cache, run, finished, or ended by an error. */
  datatype Slot = Idle | Missed | Ran(v: Visible) | Got(v: Visible) | Broken

  /** Where a call is. Each phase but Done names the operation that comes next. */
  datatype Phase =
    | Looking | Waiting | Admitted | Artifact | Uploading(binary: string) | Compiling | Archiving
    | Lookup | Writing | Running | Storing(v: Visible) | Deciding(v: Visible) | Sizing
    | Filling(left: nat) | Loading(left: nat) | Chunk(slots: seq<Slot>) | Draining
    | Finishing(out: Outcome) | Done(out: Outcome)

  datatype Call = Call(
    kind: Kind, first: Request, rest: seq<Request>, phase: Phase,
    runnable: bool,            // the run command is not empty
    stderr: string,            // compile_stderr
    maxPar: nat,               // max_parallel
    width: nat,                // the chunk size, 0 before the first chunk
    results: seq<Visible>,
    ours: seq<bool>,          // which held containers this call has loaded since it took them (history only)
    skipped: bool)             // some container was kept without being loaded (history only)

  datatype State = State(
    cu: Custody,
    files: map<nat, Files>,
    redis: map<string, Entry>,
    calls: seq<Call>,
    stale: set<Prog>)          // programs that were run on a container not loaded for them (history only)

  /**
   * How the foreign operation of a move ends: well, with a failure the code handles, or with one it
   * passes on by `?`. A write that fails may leave anything in its container.
   */
  datatype How = Good | Soft(left: Files) | Hard

  datatype Event =
    | Spawn(kind: Kind, first: Request, rest: seq<Request>)
    | Act(id: nat, how: How, slot: nat)
    | Cancel(id: nat)          // the future of the call is dropped
    | Evict(key: string)       // an entry expires or is evicted

  // ---------------------------------------------------------------- what a call is about

  function ProgOf(c: Call): Prog {
    Prog(Trim(c.first.language), Trim(c.first.version), Trim(c.first.code))
  }

  function LimitOf(w: World, c: Call): nat {
    match c.first.timeout case Some(t) => t case None => w.defaultTimeout
  }

  function Count(c: Call): nat { 1 + |c.rest| }

  function Stdin(c: Call, k: nat): Option<string>
    requires k < Count(c)
  {
    if k == 0 then c.first.stdin else c.rest[k - 1].stdin
  }

  function Stdins(c: Call): seq<Option<string>> {
    seq(Count(c), k requires 0 <= k < Count(c) => Stdin(c, k))
  }

  function Key(w: World, c: Call, k: nat): string
    requires k < Count(c)
  {
    ResultKey(w, ProgOf(c), LimitOf(w, c), Stdin(c, k))
  }

  /** The key of the early lookup: raw fields, and 1.0 for an absent timeout. */
  function EarlyKey(w: World, r: Request): string {
    ResultKey(w, Prog(r.language, r.version, r.code),
              match r.timeout case Some(t) => t case None => w.second, r.stdin)
  }

  /** The request is one the code goes on with after it has its permit. */
  predicate Accepted(c: Call) {
    var lang := ProgOf(c).lang;
    if c.kind.Batch? then
      Compiled(lang) || (Interpreted(lang) && forall i :: 0 <= i < |c.rest| ==> Agrees(c, c.rest[i]))
    else Configured(lang)
  }

  /** A later request of an interpreted batch names the same language and version, or none. */
  predicate Agrees(c: Call, r: Request) {
    && (Trim(r.language) == "" || Trim(r.language) == ProgOf(c).lang)
    && (Trim(r.version) == "" || Trim(r.version) == ProgOf(c).ver)
  }

  /** What an Ok exit has to return. */
  function Expected(w: World, c: Call): seq<Visible> {
    if c.kind.Batch? then BatchResult(w, ProgOf(c), LimitOf(w, c), Stdins(c))
    else [Fresh(w, ProgOf(c), LimitOf(w, c), c.first.stdin)]
  }

  function HeldOf(s: State, id: nat): seq<nat> {
    if id in s.cu.held then s.cu.held[id] else []
  }

  predicate SameCall(c: Call, c': Call) {
    c.kind == c'.kind && c.first == c'.first && c.rest == c'.rest && (c.skipped ==> c'.skipped)
  }

  /** From s to s' only the call id, and the files of the containers it holds, may differ. */
  ghost predicate Touches(s: State, s': State, id: nat) {
    && |s'.calls| == |s.calls| && id < |s.calls|
    && (forall j :: 0 <= j < |s.calls| && j != id ==> s'.calls[j] == s.calls[j])
    && SameCall(s.calls[id], s'.calls[id])
    && s'.files.Keys == s.files.Keys
    && (forall x :: x in s.files && x !in HeldOf(s, id) ==> s'.files[x] == s.files[x])
    && s.stale <= s'.stale <= s.stale + {ProgOf(s.calls[id])}
    && Loses(s, s', id)
  }

  /**
   * Containers are lost only if the call ends with an error, and then all it holds; a call that ends otherwise
   * holds none.
   */
  ghost predicate Loses(s: State, s': State, id: nat)
    requires id < |s'.calls|
  {
    var ph := s'.calls[id].phase;
    && (s'.cu.lost == s.cu.lost || (ph == Done(Err) && s'.cu.lost == s.cu.lost + Elems(HeldOf(s, id))))
    && (ph.Done? && ph != Done(Err) ==> HeldOf(s, id) == [] || id !in s.cu.held)
  }

  /** The store stays as it is, and no program becomes stale. */
  predicate Keeps(s: State, s': State) {
    s'.redis == s.redis && s'.stale == s.stale
  }

  /** A batch that has read the number of permits. */
  predicate Sized(ph: Phase) {
    ph.Filling? || ph.Loading? || ph.Chunk? || ph.Draining?
  }

  /** The chunk loop is not under way, and nothing it uses is changed. */
  predicate Early(s: State, s': State, id: nat)
    requires id < |s.calls| && id < |s'.calls|
  {
    var c, c' := s.calls[id], s'.calls[id];
    c'.results == c.results && c'.width == c.width && c'.maxPar == c.maxPar && !Sized(c'.phase) && !c'.phase.Sizing?
  }

  /** No build is being fetched, no result stored, and no request of a chunk has run. */
  predicate Tame(ph: Phase) {
    !ph.Archiving? && !ph.Storing? && (ph.Chunk? ==> forall i :: 0 <= i < |ph.slots| ==> ph.slots[i].Idle?)
  }

  /** No container changes hands, unless the call is dropped. */
  ghost predicate Quiet(s: State, s': State, id: nat) {
    Touches(s, s', id) && (s'.cu == s.cu || (id in s.cu.held && s'.cu == Abandon(s.cu, id)))
  }

  // ---------------------------------------------------------------- moves

  function Put(s: State, id: nat, c: Call): State
    requires id < |s.calls|
  {
    s.(calls := s.calls[id := c])
  }

  function To(s: State, id: nat, phase: Phase): State
    requires id < |s.calls|
  {
    Put(s, id, s.calls[id].(phase := phase))
  }

  /** The call ends by `?` or is cancelled: its permit is freed, its containers are not returned. */
  function Drop(s: State, id: nat): (r: State)
    requires id < |s.calls| && id in s.cu.held
    ensures Quiet(s, r, id) && Keeps(s, r) && Early(s, r, id)
    ensures Tame(r.calls[id].phase)
  {
    s.(cu := Abandon(s.cu, id), calls := s.calls[id := s.calls[id].(phase := Done(Err), ours := [])])
  }

  /** The call has a permit and at least n containers, all of them existing ones. */
  predicate Has(s: State, id: nat, n: nat) {
    && id < |s.calls| && id in s.cu.held && n <= |s.cu.held[id]| == |s.calls[id].ours|
    && forall x :: x in s.cu.held[id] ==> x in s.files
  }

  /** The (k+1)st container of the call. */
  function Box(s: State, id: nat, k: nat): nat
    requires Has(s, id, k + 1)
  {
    s.cu.held[id][k]
  }

  /** The (k+1)st container of the call gets new files. */
  function SetFiles(s: State, id: nat, k: nat, files: Files): State
    requires Has(s, id, k + 1)
  {
    s.(files := s.files[Box(s, id, k) := files])
  }

  function Looks(w: World, s: State, id: nat, how: How): (r: State)
    requires id < |s.calls| && id !in s.cu.held
    ensures Quiet(s, r, id) && Keeps(s, r) && Early(s, r, id)
    ensures Tame(r.calls[id].phase)
  {
    match ResultHit(s.redis, EarlyKey(w, s.calls[id].first))
    case Some(v) => if how.Good? then To(s, id, Done(Ok([v]))) else To(s, id, Waiting)
    case None => To(s, id, Waiting)
  }

  function Waits(s: State, id: nat): (r: State)
    requires id < |s.calls| && s.cu.permits > 0
    ensures Touches(s, r, id) && Keeps(s, r) && Early(s, r, id)
    ensures Tame(r.calls[id].phase)
  {
    To(s.(cu := Enter(s.cu, id)), id, Admitted)
  }

  /** The request is checked and the first container taken. */
  function Starts(s: State, id: nat): (r: State)
    requires Has(s, id, 0)
    ensures Touches(s, r, id) && Keeps(s, r) && Early(s, r, id)
    ensures Tame(r.calls[id].phase)
  {
    var c := s.calls[id];
    if !Accepted(c) then To(s, id, Finishing(Err))
    else
      if Take(s.cu.pool, KeyOf(ProgOf(c))).1.None? then To(s, id, Finishing(Err))
      else
        Put(s.(cu := Pop(s.cu, id, KeyOf(ProgOf(c)))), id,
        c.(phase := if Compiled(ProgOf(c).lang) then Artifact else Lookup,
                                 runnable := true, stderr := "", ours := c.ours + [false]))
  }

  function Consults(w: World, s: State, id: nat, how: How): (r: State)
    requires Has(s, id, 1)
    ensures Quiet(s, r, id) && Keeps(s, r) && Early(s, r, id)
    ensures Tame(r.calls[id].phase)
  {
    match ArtifactHit(s.redis, ArtifactKey(w, ProgOf(s.calls[id])))
    case Some(b) => if how.Good? then To(s, id, Uploading(b)) else To(s, id, Compiling)
    case None => To(s, id, Compiling)
  }

  function Uploads(w: World, s: State, id: nat, b: string, how: How): (r: State)
    requires Has(s, id, 1)
    ensures Quiet(s, r, id) && Keeps(s, r) && Early(s, r, id)
    ensures Tame(r.calls[id].phase)
  {
    var c := s.calls[id];
    if how.Good? then
      Put(SetFiles(s, id, 0, Unpacked(w, ProgOf(c), b, s.files[Box(s, id, 0)])), id,
          c.(phase := Lookup, runnable := true, ours := c.ours[0 := true]))
    else Drop(s, id)
  }

  /** The compiler has succeeded. */
  function Builds(s: State, id: nat, files: Files): (r: State)
    requires Has(s, id, 1)
    ensures Quiet(s, r, id) && Keeps(s, r) && Early(s, r, id)
    ensures r.calls[id].phase.Archiving?
  {
    var c := s.calls[id];
    Put(SetFiles(s, id, 0, files), id, c.(phase := Archiving, ours := c.ours[0 := true]))
  }

  /** The compiler has failed. */
  function Rejects(s: State, id: nat, files: Files, e: string): (r: State)
    requires Has(s, id, 1)
    ensures Quiet(s, r, id) && Keeps(s, r) && Early(s, r, id)
    ensures Tame(r.calls[id].phase)
  {
    var c := s.calls[id];
    Put(SetFiles(s, id, 0, files), id,
        c.(runnable := false, stderr := e,
           phase := if e != "" && !c.kind.Batch? then Finishing(Ok([CompileError(e)])) else Lookup))
  }

  /** The source is written and the compiler run on it. */
  function Compiles(w: World, s: State, id: nat, how: How): (r: State)
    requires Has(s, id, 1)
    ensures Quiet(s, r, id) && Keeps(s, r) && Early(s, r, id)
    ensures !r.calls[id].phase.Storing? && !r.calls[id].phase.Chunk?
  {
    var p := ProgOf(s.calls[id]);
    if !how.Good? then Drop(s, id)
    else
      var files := Scripted(w, p, s.files[Box(s, id, 0)]);
      match BuildIn(w, p, s.files[Box(s, id, 0)])
      case Built(out) => Builds(s, id, files + out)
      case Rejected(e) => Rejects(s, id, files, e)
  }

  /** The main file is fetched from the container and stored. */
  function Archives(w: World, s: State, id: nat, how: How): (r: State)
    requires Has(s, id, 1)
    ensures Quiet(s, r, id) && Early(s, r, id)
    ensures Tame(r.calls[id].phase)
  {
    var p := ProgOf(s.calls[id]);
    var files := s.files[Box(s, id, 0)];
    if how.Hard? || Primary(p.lang) !in files || files[Primary(p.lang)] == "" then Drop(s, id)
    else if how.Soft? then To(s, id, Lookup)
    else To(s.(redis := s.redis[ArtifactKey(w, p) := ArtifactEntry(p.code, files[Primary(p.lang)])]), id, Lookup)
  }

  /** The first result comes from the cache. An interpreted batch has not loaded its container then. */
  function Found(s: State, id: nat, v: Visible): (r: State)
    requires Has(s, id, 1)
    ensures Quiet(s, r, id) && Keeps(s, r) && Early(s, r, id)
    ensures Tame(r.calls[id].phase)
  {
    var c := s.calls[id];
    if c.kind.Batch? then Put(s, id, c.(phase := Deciding(v), skipped := c.skipped || !c.ours[0]))
    else To(s, id, Finishing(Ok([v])))
  }

  function Misses(s: State, id: nat): (r: State)
    requires Has(s, id, 1)
    ensures Quiet(s, r, id) && Keeps(s, r) && Early(s, r, id)
    ensures Tame(r.calls[id].phase)
  {
    To(s, id, if Compiled(ProgOf(s.calls[id]).lang) then Running else Writing)
  }

  function LooksUp(w: World, s: State, id: nat, how: How): (r: State)
    requires Has(s, id, 1)
    ensures Quiet(s, r, id) && Keeps(s, r) && Early(s, r, id)
    ensures Tame(r.calls[id].phase)
  {
    match ResultHit(s.redis, Key(w, s.calls[id], 0))
    case Some(v) => if how.Good? then Found(s, id, v) else Misses(s, id)
    case None => Misses(s, id)
  }

  function Writes(s: State, id: nat, how: How): (r: State)
    requires Has(s, id, 1)
    ensures Quiet(s, r, id) && Keeps(s, r) && Early(s, r, id)
    ensures Tame(r.calls[id].phase)
  {
    var c := s.calls[id];
    var p := ProgOf(c);
    match how
    case Hard => Drop(s, id)
    case Soft(left) =>
      Put(SetFiles(s, id, 0, left), id, c.(phase := Finishing(Err), ours := c.ours[0 := false]))
    case Good =>
      Put(SetFiles(s, id, 0, s.files[Box(s, id, 0)][SourceFile(p.lang) := p.code]), id,
          c.(phase := Running, ours := c.ours[0 := true]))
  }

  function RunOf(w: World, c: Call, k: nat, files: Files): Option<Visible>
    requires k < Count(c)
  {
    Output(w, ProgOf(c), c.runnable, LimitOf(w, c), Stdin(c, k), files)
  }

  function RunsFirst(w: World, s: State, id: nat, how: How): (r: State)
    requires Has(s, id, 1)
    ensures Quiet(s, r, id) && Keeps(s, r) && Early(s, r, id)
    ensures !r.calls[id].phase.Archiving? && !r.calls[id].phase.Chunk?
  {
    match how
    case Hard => Drop(s, id)
    case Soft(_) => To(s, id, Finishing(Err))
    case Good =>
      match RunOf(w, s.calls[id], 0, s.files[Box(s, id, 0)])
      case None => Drop(s, id)
      case Some(v) => To(s, id, Storing(v))
  }

  /** Only a result without stderr is stored. */
  function Stored(s: State, key: string, v: Visible, how: How): State {
    if v.stderr.None? && how.Good? then s.(redis := s.redis[key := ResultEntry(v)]) else s
  }

  function Stores(w: World, s: State, id: nat, v: Visible, how: How): (r: State)
    requires Has(s, id, 1)
    ensures Quiet(s, r, id) && Early(s, r, id)
    ensures Tame(r.calls[id].phase)
  {
    var c := s.calls[id];
    To(Stored(s, Key(w, c, 0), v, how), id, if c.kind.Batch? then Deciding(v) else Finishing(Ok([v])))
  }

  function Decides(s: State, id: nat, v: Visible): (r: State)
    requires Has(s, id, 1)
    ensures Quiet(s, r, id) && Keeps(s, r)
    ensures Tame(r.calls[id].phase)
  {
    var c := s.calls[id];
    if c.stderr != "" || v.exitCode != 0 then
      To(s, id, Finishing(Ok([if c.stderr != "" then CompileError(c.stderr) else v]
                             + seq(|c.rest|, _ => PLACEHOLDER))))
    else Put(s, id, c.(phase := Sizing, results := [v]))
  }

  function Sizes(s: State, id: nat): (r: State)
    requires Has(s, id, 1)
    ensures Touches(s, r, id) && Keeps(s, r)
    ensures Tame(r.calls[id].phase)
  {
    var c := s.calls[id];
    var m := Min(s.cu.permits, |c.rest|);
    Put(s.(cu := Size(s.cu, id, |c.rest|)), id,
        c.(maxPar := m, phase := Filling(if m > 0 then m - 1 else 0)))
  }

  function Left(c: Call): nat { if |c.results| < Count(c) then Count(c) - |c.results| else 0 }

  /** One more container is taken, if the pool has one. */
  function Grows(s: State, id: nat, left: nat): (r: State)
    requires Has(s, id, 0)
    ensures Touches(s, r, id) && Keeps(s, r)
    ensures Tame(r.calls[id].phase)
  {
    var c := s.calls[id];
    if Take(s.cu.pool, KeyOf(ProgOf(c))).1.None? then To(s, id, Filling(left))
    else Put(s.(cu := Pop(s.cu, id, KeyOf(ProgOf(c)))), id, c.(phase := Loading(left), ours := c.ours + [false]))
  }

  /** The next chunk begins: `i % containers.len()` is undefined without containers. */
  function Begins(s: State, id: nat): (r: State)
    requires Has(s, id, 0)
    ensures Touches(s, r, id) && Keeps(s, r)
    ensures Tame(r.calls[id].phase)
  {
    var c := s.calls[id];
    var h := s.cu.held[id];
    if Left(c) == 0 then To(s, id, Finishing(Ok(c.results)))
    else if h == [] then To(s.(cu := Leave(s.cu, id)), id, Done(Fault))
    else
      var width := if c.width == 0 then |h| else c.width;
      Put(s, id, c.(width := width, phase := Chunk(seq(Min(width, Left(c)), _ => Idle))))
  }

  function Fills(s: State, id: nat, left: nat): (r: State)
    requires Has(s, id, 0)
    ensures Touches(s, r, id) && Keeps(s, r)
    ensures Tame(r.calls[id].phase)
  {
    if left > 0 then Grows(s, id, left - 1) else Begins(s, id)
  }

  /** The container taken last is kept with these files. */
  function Kept(s: State, id: nat, left: nat, files: Files): (r: State)
    requires Has(s, id, 1)
    ensures Quiet(s, r, id) && Keeps(s, r)
    ensures Tame(r.calls[id].phase)
  {
    var c := s.calls[id];
    var k := |s.cu.held[id]| - 1;
    Put(SetFiles(s, id, k, files), id, c.(phase := Filling(left), skipped := true, ours := c.ours[k := false]))
  }

  /** The last container gets one file more. */
  function Gets(s: State, id: nat, left: nat, name: string, text: string): (r: State)
    requires Has(s, id, 1)
    ensures Quiet(s, r, id) && Keeps(s, r)
    ensures Tame(r.calls[id].phase)
  {
    var c := s.calls[id];
    var k := |s.cu.held[id]| - 1;
    Put(SetFiles(s, id, k, s.files[Box(s, id, k)][name := text]), id,
        c.(phase := Filling(left), ours := c.ours[k := true]))
  }

  /** The container taken last is loaded, or kept as it is. */
  function Loads(w: World, s: State, id: nat, left: nat, how: How): (r: State)
    requires Has(s, id, 1)
    ensures Quiet(s, r, id) && Keeps(s, r)
    ensures Tame(r.calls[id].phase)
  {
    var p := ProgOf(s.calls[id]);
    var files := s.files[Box(s, id, |s.cu.held[id]| - 1)];
    if Compiled(p.lang) then
      match ArtifactHit(s.redis, ArtifactKey(w, p))
      case None => Kept(s, id, left, files)
      case Some(b) =>
        match how
        case Hard => Drop(s, id)
        case Soft(_) => Kept(s, id, left, files)
        case Good => Gets(s, id, left, Primary(p.lang), b)
    else
      match how
      case Hard => Drop(s, id)
      case Soft(junk) => Kept(s, id, left, junk)
      case Good => Gets(s, id, left, SourceFile(p.lang), p.code)
  }

  predicate Finished(slot: Slot) { slot.Got? || slot.Broken? }

  /** The call has a chunk under way, and the slot is one of it. */
  predicate HasSlot(s: State, id: nat, slots: seq<Slot>, i: nat) {
    Has(s, id, 1) && s.calls[id].phase == Chunk(slots) && i < |slots|
    && |s.calls[id].results| + |slots| <= Count(s.calls[id])
  }

  /** The container for slot i: `containers[i % containers.len()]`. */
  function BoxOf(s: State, id: nat, i: nat): nat
    requires Has(s, id, 1)
  {
    i % |s.cu.held[id]|
  }

  /** One request of the chunk moves: cache lookup, run, cache store. */
  function SlotAfter(w: World, s: State, id: nat, slots: seq<Slot>, i: nat, how: How): Slot
    requires HasSlot(s, id, slots, i)
  {
    var c := s.calls[id];
    var k := |c.results| + i;
    match slots[i]
    case Idle =>
      (match ResultHit(s.redis, Key(w, c, k))
       case Some(v) => if how.Good? then Got(v) else Missed
       case None => Missed)
    case Missed =>
      if !how.Good? then Broken
      else
        (match RunOf(w, c, k, s.files[Box(s, id, BoxOf(s, id, i))])
         case None => Broken
         case Some(v) => Ran(v))
    case Ran(v) => Got(v)
    case Got(v) => Got(v)
    case Broken => Broken
  }

  /** The request is about to run a program on a container that the call has not loaded. */
  predicate RunsStale(s: State, id: nat, slots: seq<Slot>, i: nat, how: How)
    requires HasSlot(s, id, slots, i)
  {
    slots[i].Missed? && how.Good? && s.calls[id].runnable && !s.calls[id].ours[BoxOf(s, id, i)]
  }

  function Slots(w: World, s: State, id: nat, slots: seq<Slot>, i: nat, how: How): (r: State)
    requires HasSlot(s, id, slots, i)
    ensures Quiet(s, r, id) && r.cu == s.cu && r.files == s.files
    ensures r.calls[id] == s.calls[id].(phase := Chunk(slots[i := SlotAfter(w, s, id, slots, i, how)]))
  {
    var c := s.calls[id];
    var s1 := if slots[i].Ran? then Stored(s, Key(w, c, |c.results| + i), slots[i].v, how)
              else if RunsStale(s, id, slots, i, how) then s.(stale := s.stale + {ProgOf(c)})
              else s;
    To(s1, id, Chunk(slots[i := SlotAfter(w, s, id, slots, i, how)]))
  }

  predicate AllFinished(slots: seq<Slot>) {
    forall i :: 0 <= i < |slots| ==> Finished(slots[i])
  }

  /** All requests of the chunk have finished. */
  function Joins(s: State, id: nat, slots: seq<Slot>): (r: State)
    requires Has(s, id, 1) && AllFinished(slots)
    ensures Quiet(s, r, id) && Keeps(s, r)
    ensures Tame(r.calls[id].phase)
  {
    var c := s.calls[id];
    if Broken in slots then Drop(s, id)
    else
      var results := c.results + seq(|slots|,
        i requires 0 <= i < |slots| => if slots[i].Got? then slots[i].v else PLACEHOLDER);
      Put(s, id, c.(results := results,
                    phase := if |results| < Count(c) then Draining else Finishing(Ok(results))))
  }

  function Returns(s: State, id: nat): (r: State)
    requires Has(s, id, 1) && !s.calls[id].phase.Done?
    ensures Touches(s, r, id) && Keeps(s, r)
  {
    var c := s.calls[id];
    Put(s.(cu := Push(s.cu, id, KeyOf(ProgOf(c)))), id, c.(ours := c.ours[1..]))
  }

  function Drains(s: State, id: nat): (r: State)
    requires Has(s, id, 0) && s.calls[id].phase.Draining?
    ensures Touches(s, r, id) && Keeps(s, r)
    ensures Tame(r.calls[id].phase)
  {
    if s.cu.held[id] != [] then Returns(s, id) else To(s, id, Filling(s.calls[id].maxPar))
  }

  function Finishes(s: State, id: nat, out: Outcome): (r: State)
    requires Has(s, id, 0) && s.calls[id].phase == Finishing(out)
    ensures Touches(s, r, id) && Keeps(s, r)
    ensures r.cu.lost == s.cu.lost
    ensures Tame(r.calls[id].phase)
  {
    if s.cu.held[id] != [] then Returns(s, id) else To(s.(cu := Leave(s.cu, id)), id, Done(out))
  }

  /** The next operation of the call can happen. Only Waiting waits for anything but a foreign call. */
  predicate Ready(s: State, id: nat, slot: nat) {
    id < |s.calls| &&
    match s.calls[id].phase
    case Looking => id !in s.cu.held
    case Waiting => s.cu.permits > 0
    case Done(_) => false
    case Chunk(slots) =>
      Has(s, id, 1) && |s.calls[id].results| + |slots| <= Count(s.calls[id]) &&
      (AllFinished(slots) || (slot < |slots| && !Finished(slots[slot])))
    case Admitted => Has(s, id, 0)
    case Filling(_) => Has(s, id, 0)
    case Draining => Has(s, id, 0)
    case Finishing(_) => Has(s, id, 0)
    case _ => Has(s, id, 1)
  }

  function Moved(w: World, s: State, id: nat, how: How, slot: nat): (r: State)
    requires Ready(s, id, slot)
    ensures Touches(s, r, id)
  {
    match s.calls[id].phase
    case Looking => Looks(w, s, id, how)
    case Waiting => Waits(s, id)
    case Admitted => Starts(s, id)
    case Artifact => Consults(w, s, id, how)
    case Uploading(b) => Uploads(w, s, id, b, how)
    case Compiling => Compiles(w, s, id, how)
    case Archiving => Archives(w, s, id, how)
    case Lookup => LooksUp(w, s, id, how)
    case Writing => Writes(s, id, how)
    case Running => RunsFirst(w, s, id, how)
    case Storing(v) => Stores(w, s, id, v, how)
    case Deciding(v) => Decides(s, id, v)
    case Sizing => Sizes(s, id)
    case Filling(left) => Fills(s, id, left)
    case Loading(left) => Loads(w, s, id, left, how)
    case Chunk(slots) => if AllFinished(slots) then Joins(s, id, slots) else Slots(w, s, id, slots, slot, how)
    case Draining => Drains(s, id)
    case Finishing(out) => Finishes(s, id, out)
  }

  function NewCall(kind: Kind, first: Request, rest: seq<Request>): Call {
    Call(kind, first, rest, if kind.Handled? then Looking else Waiting, false, "", 0, 0, [], [], false)
  }

  predicate Enabled(s: State, e: Event) {
    match e
    case Spawn(kind, first, rest) => !kind.Batch? ==> rest == []
    case Act(id, how, slot) => Ready(s, id, slot)
    case Cancel(id) => id < |s.calls| && !s.calls[id].phase.Done?
    case Evict(_) => true
  }

  function Step(w: World, s: State, e: Event): State
    requires Enabled(s, e)
  {
    match e
    case Spawn(kind, first, rest) => s.(calls := s.calls + [NewCall(kind, first, rest)])
    case Act(id, how, slot) => Moved(w, s, id, how, slot)
    case Cancel(id) => if id in s.cu.held then Drop(s, id) else To(s, id, Done(Err))
    case Evict(key) => s.(redis := s.redis - {key})
  }

  /**
   * What start-up leaves: every container, empty, in the pool under its key, no call, and nothing in the cache
   * but what was right.
   */
  ghost predicate Init(w: World, s: State) {
    && s.cu.permits == w.total && s.cu.held == map[] && s.cu.par == map[] && s.cu.order == []
    && s.cu.lost == {} && Placed(s.cu, w.home)
    && s.cu.pool.Keys == PoolKeys()
    && s.files.Keys == w.home.Keys && (forall x :: x in s.files ==> s.files[x] == map[])
    && StoreGood(w, {}, s.redis) && s.calls == [] && s.stale == {}
  }

  /** A run: a start state, then one state after every event. */
  ghost predicate Run(w: World, trace: seq<State>, events: seq<Event>) {
    && |trace| == |events| + 1
    && Init(w, trace[0])
    && forall i :: 0 <= i < |events| ==> Enabled(trace[i], events[i]) && trace[i + 1] == Step(w, trace[i], events[i])
  }
}
