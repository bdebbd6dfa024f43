/**
 * What a call may come to: when its requests can have a result at all, which results are right, and
 * what a batch returns that runs its second request on a container left unloaded.
 */
module Outcomes {
  import opened Options
  import opened Text
  import opened Platform
  import opened Keys
  import opened Store
  import opened Services
  import opened Compilers
  import opened Custody
  import opened ContainerPool
  import opened Engine
  import opened Meaning
  import opened Invariants
  import opened Contents
  import opened Shares

  import Progress

  /** What a first attempt gives; after a failure the container is handed back, or dropped by `?`. */
  datatype Attempt = Success(v: Visible) | Failure(returned: bool)

  /**
   * What a call that may hold `mine` relies on whenever it comes to act: whatever the store says of programs
   * not in `bad` is right, and the containers in the pool and in its hands are in order.
   */
  ghost predicate InOrder(w: World, bad: set<Prog>, home: map<nat, string>, key: string, mine: seq<nat>,
          store: map<string, Entry>, files: map<nat, Files>, pool: Pool) {
    StoreGood(w, bad, store) && files.Keys == home.Keys && Stocked(pool, mine, key, home)
  }

  lemma OrderIs(w: World, bad: set<Prog>, home: map<nat, string>, key: string, mine: seq<nat>,
          store: map<string, Entry>, files: map<nat, Files>, pool: Pool)
    ensures InOrder(w, bad, home, key, mine, store, files, pool) <==>
      StoreGood(w, bad, store) && files.Keys == home.Keys && Stocked(pool, mine, key, home)
  {
  }

  lemma OrderGrows(w: World, bad: set<Prog>, bad': set<Prog>, home: map<nat, string>, store: map<string, Entry>,
          files: map<nat, Files>, pool: Pool)
    requires InOrder(w, bad, home, "", [], store, files, pool) && bad <= bad'
    ensures InOrder(w, bad', home, "", [], store, files, pool)
  {
    StoreGrows(w, bad, bad', store);
  }

  /** Containers that are dropped leave the rest in order. */
  lemma OrderDrop(w: World, bad: set<Prog>, home: map<nat, string>, key: string, mine: seq<nat>, other: string,
          store: map<string, Entry>, files: map<nat, Files>, pool: Pool)
    requires InOrder(w, bad, home, key, mine, store, files, pool)
    ensures InOrder(w, bad, home, other, [], store, files, pool)
  {
    StockedDrop(pool, mine, key, other, home);
  }

  /** These containers are as they were. */
  predicate Untouched(mine: seq<nat>, files: map<nat, Files>, files': map<nat, Files>) {
    forall c :: c in mine && c in files ==> c in files' && files'[c] == files[c]
  }

  /** All these containers have the program, but perhaps the raw ones. */
  predicate AllReady(w: World, p: Prog, containers: seq<nat>, raw: set<nat>, files: map<nat, Files>) {
    forall i :: 0 <= i < |containers| && containers[i] !in raw ==>
      containers[i] in files && Loaded(w, p, files[containers[i]])
  }

  /** Those of a call that has something to run do, if that can be told. */
  predicate Prepped(w: World, p: Prog, prep: Prepared, containers: seq<nat>, raw: set<nat>, files: map<nat, Files>) {
    prep.runnable && Whole(w, p) ==> AllReady(w, p, containers, raw, files)
  }

  lemma PreppedMore(w: World, p: Prog, prep: Prepared, mine: seq<nat>, raw: set<nat>, box: nat,
          files: map<nat, Files>, files': map<nat, Files>, left: bool)
    requires Prepped(w, p, prep, mine, raw, files) && box !in mine && box in files'
    requires forall x :: x in mine && x in files ==> x in files' && files'[x] == files[x]
    requires prep.runnable && Whole(w, p) && !left ==> Loaded(w, p, files'[box])
    ensures Prepped(w, p, prep, mine + [box], if left then raw + {box} else raw, files')
  {
  }

  lemma PreppedStays(w: World, p: Prog, prep: Prepared, mine: seq<nat>, raw: set<nat>, files: map<nat, Files>,
          files': map<nat, Files>)
    requires Prepped(w, p, prep, mine, raw, files)
    requires forall x :: x in mine && x in files ==> x in files' && files'[x] == files[x]
    ensures Prepped(w, p, prep, mine, raw, files')
  {
  }

  lemma ReadyOne(w: World, p: Prog, prep: Prepared, containers: seq<nat>, raw: set<nat>, files: map<nat, Files>,
          box: nat)
    requires Prepped(w, p, prep, containers, raw, files) && box in containers && box !in raw
    requires prep.runnable && Whole(w, p)
    ensures box in files && Loaded(w, p, files[box])
  {
  }

  /** A pair that has a pool is a configured one, and trimming changes nothing any more. */
  lemma PairOfPool(c: Call)
    requires KeyOf(ProgOf(c)) in PoolKeys()
    ensures OfPair(ProgOf(c))
  {
    TrimTwice(c.first.language);
    TrimTwice(c.first.version);
    TrimTwice(c.first.code);
  }

  // ---------------------------------------------------------------- requests that have no result

  /** The engine refuses to execute an empty command, unless stdin is piped into it. */
  predicate Refused(c: Call, k: nat, prep: Prepared)
    requires k < Count(c)
  {
    !prep.runnable && Stdin(c, k).None?
  }

  ghost predicate SomeRefused(c: Call, from: nat, to: nat, prep: Prepared)
    requires to <= Count(c)
  {
    exists k :: from <= k < to && Refused(c, k, prep)
  }

  /** Nothing about the program itself keeps its requests from having a result. */
  predicate Doable(w: World, c: Call) {
    var p := ProgOf(c);
    Certain(p) &&
    (Compiled(p.lang) ==>
      match FreshBuild(w, p)
      case Built(out) => BuildsWell(w, p)
      case Rejected(e) =>
        if c.kind.Batch? then c.first.stdin.Some? &&
          (e == "" ==> forall i :: 0 <= i < |c.rest| ==> c.rest[i].stdin.Some?)
        else e != "" || c.first.stdin.Some?)
  }

  /** The request is one the code goes on with, there is a container for it, and its program is doable. */
  predicate Feasible(w: World, c: Call, pool: Pool) {
    Accepted(c) && Depth(pool, KeyOf(ProgOf(c))) > 0 && Doable(w, c)
  }

  /** The call knows its build, so what it can be refused for is what makes it not doable. */
  lemma RefusedIsUndoable(w: World, c: Call, k: nat, prep: Prepared)
    requires k < Count(c) && KnowsBuild(w, ProgOf(c), prep.runnable, prep.stderr) && Refused(c, k, prep)
    requires k > 0 || c.kind.Batch? || prep.stderr == ""
    requires k > 0 ==> c.kind.Batch? && prep.stderr == ""
    ensures !Doable(w, c)
  {
    if k > 0 {
      assert c.rest[k - 1].stdin.None?;
    }
  }

  lemma SomeUndoable(w: World, c: Call, from: nat, to: nat, prep: Prepared)
    requires 0 < from <= to <= Count(c) && SomeRefused(c, from, to, prep) && c.kind.Batch? && prep.stderr == ""
    requires KnowsBuild(w, ProgOf(c), prep.runnable, prep.stderr)
    ensures !Doable(w, c)
  {
    var k :| from <= k < to && Refused(c, k, prep);
    RefusedIsUndoable(w, c, k, prep);
  }

  /** A first request that is refused would show something on stderr. */
  lemma RefusedShowsStderr(w: World, c: Call, prep: Prepared)
    requires Complains(w) && KnowsBuild(w, ProgOf(c), prep.runnable, prep.stderr) && Refused(c, 0, prep)
    requires Certain(ProgOf(c))
    ensures Want(w, c, 0).stderr.Some?
  {
  }

  /** The build of the program cannot be used, though the compiler would succeed on a fresh container. */
  predicate UnfitBuild(w: World, c: Call) {
    !Doable(w, c) && (Runs(w, ProgOf(c)) || !Certain(ProgOf(c)))
  }

  /** How many operations failed in an attempt, and how many of them were passed on by `?`. */
  predicate Accounted(r: Attempt, refused: bool, past: Past, past': Past) {
    match r
    case Success(v) => past'.failures == past.failures && past'.hard == past.hard
    case Failure(true) => past'.failures > past.failures && past'.hard == past.hard
    case Failure(false) => past'.hard > past.hard || (refused && past'.failures == past.failures)
  }

  /** No operation has failed. */
  predicate Flawless(past: Past, past': Past, asked: Asked, asked': Asked) {
    past'.failures == past.failures && asked'.failures == asked.failures
  }

  /** At most one run was added, of the first request, on this container. */
  predicate MayRan(ran: seq<Tried>, ran': seq<Tried>, box: nat) {
    ran' == ran || ran' == ran + [Tried(0, box)]
  }

  /** The spoilt programs, when the call has perhaps added its own. */
  function Worse(bad: set<Prog>, c: Call, spoilt: bool): (worse: set<Prog>)
    ensures bad <= worse
  {
    if spoilt then bad + {ProgOf(c)} else bad
  }

  lemma WorseTwice(bad: set<Prog>, c: Call, spoilt: bool, spoils: bool)
    ensures Worse(Worse(bad, c, spoilt), c, spoils) == Worse(bad, c, spoilt || spoils)
  {
  }

  /** Why a further container may be kept unloaded: its artifact was not found, or the write of the source was late. */
  predicate Excused(p: Prog, past: Past, past': Past, asked: Asked, asked': Asked) {
    if Compiled(p.lang) then asked'.missed > asked.missed else past'.late > past.late
  }

  /** Why a batch may spoil its program: that, or its first result was found in the cache. */
  predicate SpoilCause(p: Prog, past: Past, past': Past, asked: Asked, asked': Asked) {
    Excused(p, past, past', asked, asked') || (!Compiled(p.lang) && asked'.found > asked.found)
  }

  /** What was met in two stretches, one after the other. */
  lemma PastOn(p: Prog, past: Past, past1: Past, past2: Past, asked: Asked, asked1: Asked, asked2: Asked)
    requires SinceLoaded(past, past1) && SinceAsked(asked, asked1)
    requires SinceLoaded(past1, past2) && SinceAsked(asked1, asked2)
    ensures SinceLoaded(past, past2) && SinceAsked(asked, asked2)
    ensures Excused(p, past, past1, asked, asked1) || Excused(p, past1, past2, asked1, asked2) ==>
      Excused(p, past, past2, asked, asked2)
    ensures Flawless(past, past2, asked, asked2) ==>
      Flawless(past, past1, asked, asked1) && Flawless(past1, past2, asked1, asked2)
    ensures past1.failures > past.failures || past2.failures > past1.failures ==> past2.failures > past.failures
  {
  }

  /** What `execute` alone leaves of the pool: its container is lost exactly if an error is passed on. */
  predicate LeftBy(w: World, c: Call, out: Outcome, entry: Pool, pool: Pool, passedOn: bool) {
    var lost := Take(entry, KeyOf(ProgOf(c))).0;
    && (pool == entry || (out.Err? && pool == lost))
    && (Feasible(w, c, entry) ==> pool == if passedOn then lost else entry)
  }

  /** The first result, and what of the cache it tells of. */
  predicate FoundBy(w: World, c: Call, v: Visible, raw: bool, store: map<string, Entry>, store': map<string, Entry>) {
    var hit := ResultHit(store, Key(w, c, 0));
    (raw <==> !Compiled(ProgOf(c).lang) && hit.Some?) && (hit.Some? ==> v == hit.value) && (raw ==> store' == store)
  }

  lemma FoundFrom(w: World, c: Call, v: Visible, raw: bool, store: map<string, Entry>, between: map<string, Entry>,
          store': map<string, Entry>)
    requires ResultHit(between, Key(w, c, 0)) == ResultHit(store, Key(w, c, 0))
    requires !Compiled(ProgOf(c).lang) ==> between == store
    ensures AnswerStored(w, c, v, raw, between, store') ==> FoundBy(w, c, v, raw, store, store')
  {
  }

  lemma LeftIs(w: World, c: Call, out: Outcome, entry: Pool, taken: Pool, box: nat, pool: Pool, back: bool,
          passedOn: bool)
    requires Take(entry, KeyOf(ProgOf(c))) == (taken, Some(box))
    requires pool == if back then Give(taken, KeyOf(ProgOf(c)), box) else taken
    requires (!out.Err? ==> back) && (Doable(w, c) ==> (back <==> !passedOn))
    ensures LeftBy(w, c, out, entry, pool, passedOn)
  {
    TakenAndGiven(entry, KeyOf(ProgOf(c)), box);
  }

  lemma NothingLeft(w: World, c: Call, entry: Pool)
    requires Configured(ProgOf(c).lang) ==> Take(entry, KeyOf(ProgOf(c))).1.None?
    ensures !Feasible(w, c, entry) && LeftBy(w, c, Err, entry, entry, false)
  {
  }

  // ---------------------------------------------------------------- results of one request

  /** The first result, where it came from, and what the cache has of it then. */
  predicate AnswerStored(w: World, c: Call, v: Visible, raw: bool, store: map<string, Entry>,
          store': map<string, Entry>)
  {
    var key := Key(w, c, 0);
    && (raw <==> !Compiled(ProgOf(c).lang) && ResultHit(store, key).Some?)
    && (ResultHit(store, key).Some? ==> v == ResultHit(store, key).value && store' == store)
    && (v.stderr.None? ==> ResultHit(store', key) == Some(v))
  }

  /** `EvaluationResult::error_result` */
  function ErrorResult(message: string): Visible {
    Visible(message, Some(message), 1)
  }

  /** The result is the answer to the request, if its program is not spoilt and the early lookup is no less patient. */
  predicate Served(w: World, bad: set<Prog>, r: Request, v: Visible) {
    Clean(w, bad, ProgramOf(r)) && QuickIsPatient(w, r) ==> Answers(w, r, r.stdin, v)
  }

  /** The result is the answer, or tells of an error. */
  ghost predicate Answered(w: World, bad: set<Prog>, r: Request, v: Visible) {
    Served(w, bad, r, v) || exists message :: v == Visible(message, Some(message), 1)
  }

  ghost predicate AllAnswered(w: World, bad: set<Prog>, requests: seq<Request>, results: seq<Visible>) {
    forall i :: 0 <= i < |requests| && i < |results| ==> Answered(w, bad, requests[i], results[i])
  }

  predicate AllServed(w: World, bad: set<Prog>, requests: seq<Request>, results: seq<Visible>) {
    forall i :: 0 <= i < |requests| && i < |results| ==> Served(w, bad, requests[i], results[i])
  }

  /** Those whose result is in the store under the key of the early lookup have a result and no error. */
  predicate FoundServed(w: World, bad: set<Prog>, requests: seq<Request>, results: seq<Visible>,
          store: map<string, Entry>) {
    forall i :: 0 <= i < |requests| && i < |results| && QuicklyFound(w, requests[i], store) ==>
      results[i].stderr.None? && Served(w, bad, requests[i], results[i])
  }

  predicate AllFeasible(w: World, requests: seq<Request>, pool: Pool) {
    forall i :: 0 <= i < |requests| ==> CanServe(w, requests[i], pool)
  }

  lemma WantIsAnswer(w: World, bad: set<Prog>, c: Call, v: Visible)
    requires Clean(w, bad, ProgOf(c)) && v == Want(w, c, 0)
    ensures Answers(w, c.first, c.first.stdin, v)
  {
    hide Answers, Fresh, OneDocument, FreshBuild, Trim;
    OneExactly(w, c, 0, v);
  }

  lemma ExpectedIsAnswer(w: World, bad: set<Prog>, c: Call, results: seq<Visible>)
    requires Clean(w, bad, ProgOf(c)) && results == Expected(w, c)
    ensures CallAnswered(w, c, results)
  {
    hide CallAnswered, Fresh, OneDocument, FreshBuild, Trim;
    ExpectedExactly(w, c, results);
  }

  /** What keeps a request from being served, apart from failures, is what keeps it from being feasible. */
  lemma FeasibleExactly(w: World, c: Call, pool: Pool)
    ensures Feasible(w, c, pool) <==>
      if c.kind.Batch? then CanServeBatch(w, Requests(c), pool) else CanServe(w, c.first, pool)
  {
    hide Trim, BuildOf, FreshBuild, BatchSupported, Accepted;
    SupportedExactly(c);
    var r := c.first;
    assert Requests(c)[0] == r;
    if Certain(ProgOf(c)) && Compiled(Trim(r.language)) {
      BuildExactly(w, r);
      if c.kind.Batch? && FreshBuild(w, ProgOf(c)) == Rejected("") && r.stdin.Some? {
        StdinsExactly(c);
      }
    }
  }

  lemma StdinsExactly(c: Call)
    requires c.first.stdin.Some?
    ensures (forall i :: 0 <= i < |c.rest| ==> c.rest[i].stdin.Some?) <==>
      forall k :: 0 <= k < |Requests(c)| ==> Requests(c)[k].stdin.Some?
  {
    if forall k :: 0 <= k < |Requests(c)| ==> Requests(c)[k].stdin.Some? {
      forall i | 0 <= i < |c.rest| ensures c.rest[i].stdin.Some? {
        assert Requests(c)[i + 1] == c.rest[i];
      }
    }
  }

  /** All results of the one store are results in the other, but perhaps one under this key. */
  predicate KeepsResults(store: map<string, Entry>, store': map<string, Entry>, but: string) {
    forall key :: key in store && key != but && store[key].ResultEntry? ==> key in store' && store'[key].ResultEntry?
  }

  lemma KeepsOn(store: map<string, Entry>, store1: map<string, Entry>, store2: map<string, Entry>, but: string)
    requires KeepsResults(store, store1, but) && KeepsResults(store1, store2, but)
    ensures KeepsResults(store, store2, but)
  {
  }

  lemma KeepsOff(store: map<string, Entry>, store': map<string, Entry>, but: string)
    requires SameOff(store, store', but)
    ensures KeepsResults(store, store', but)
  {
  }

  lemma KeepsStored(store: map<string, Entry>, but: string, key: string, v: Visible)
    ensures KeepsResults(store, store, but) && KeepsResults(store, store[key := ResultEntry(v)], but)
  {
  }

  /** So the early lookup goes on finding what it would have found. */
  lemma StillFound(w: World, r: Request, q: Prog, store: map<string, Entry>, store': map<string, Entry>)
    requires KeepsResults(store, store', ArtifactKey(w, q)) && QuicklyFound(w, r, store)
    ensures QuicklyFound(w, r, store')
  {
    KeysApart(w, Prog(r.language, r.version, r.code), match r.timeout case Some(t) => t case None => w.second, r.stdin,
              q);
  }

  predicate AllFound(w: World, requests: seq<Request>, store: map<string, Entry>, store': map<string, Entry>) {
    forall i :: 0 <= i < |requests| && QuicklyFound(w, requests[i], store) ==> QuicklyFound(w, requests[i], store')
  }

  lemma FoundStarts(w: World, bad: set<Prog>, requests: seq<Request>, store: map<string, Entry>)
    ensures AllFound(w, requests, store, store) && FoundServed(w, bad, requests, [], store)
  {
  }

  lemma FoundMore(w: World, bad: set<Prog>, requests: seq<Request>, results: seq<Visible>, v: Visible,
          store: map<string, Entry>, before: map<string, Entry>, after: map<string, Entry>)
    requires |results| < |requests|
    ensures var r := requests[|results|];
      AllFound(w, requests, store, before) && KeepsResults(before, after, ArtifactKey(w, ProgramOf(r))) ==>
        && AllFound(w, requests, store, after)
        && (FoundServed(w, bad, requests, results, store)
            && (QuicklyFound(w, r, before) ==> v.stderr.None? && Served(w, bad, r, v)) ==>
              FoundServed(w, bad, requests, results + [v], store))
  {
    hide Served, KeepsResults, QuicklyFound;
    var r := requests[|results|];
    if AllFound(w, requests, store, before) && KeepsResults(before, after, ArtifactKey(w, ProgramOf(r))) {
      forall i | 0 <= i < |requests| && QuicklyFound(w, requests[i], store)
        ensures QuicklyFound(w, requests[i], after)
      {
        StillFound(w, requests[i], ProgramOf(r), before, after);
      }
    }
  }

  /** Storing a result leaves artifacts alone. */
  lemma ArtifactStays(w: World, c: Call, k: nat, v: Visible, store: map<string, Entry>)
    requires k < Count(c)
    ensures ArtifactHit(store[Key(w, c, k) := ResultEntry(v)], ArtifactKey(w, ProgOf(c))) ==
            ArtifactHit(store, ArtifactKey(w, ProgOf(c)))
  {
    KeysApart(w, ProgOf(c), LimitOf(w, c), Stdin(c, k), ProgOf(c));
  }

  /** Storing an artifact leaves results alone. */
  lemma ResultStays(w: World, c: Call, k: nat, store: map<string, Entry>, store': map<string, Entry>)
    requires k < Count(c) && SameOff(store, store', ArtifactKey(w, ProgOf(c)))
    ensures ResultHit(store', Key(w, c, k)) == ResultHit(store, Key(w, c, k))
  {
    KeysApart(w, ProgOf(c), LimitOf(w, c), Stdin(c, k), ProgOf(c));
    HitStays(store, store', ArtifactKey(w, ProgOf(c)), Key(w, c, k));
  }

  // ---------------------------------------------------------------- a chunk

  /** What a slot holds is what some run showed, and what is wanted unless the program is spoilt. */
  ghost predicate SlotFair(w: World, c: Call, k: nat, slot: Slot, bad: set<Prog>)
    requires k < Count(c)
  {
    && ((slot.Ran? || slot.Got?) && Clean(w, bad, ProgOf(c)) ==> slot.v == Want(w, c, k))
    && (slot.Ran? ==> Shows(w, OriginOf(w, c, k), slot.v))
  }

  ghost predicate SlotsFair(w: World, c: Call, from: nat, slots: seq<Slot>, bad: set<Prog>) {
    from + |slots| <= Count(c) && forall i :: 0 <= i < |slots| ==> SlotFair(w, c, from + i, slots[i], bad)
  }

  lemma Unspoilt(w: World, c: Call, from: nat, count: nat, bad: set<Prog>)
    requires from + count <= Count(c)
    ensures Worse(bad, c, false) == bad && SlotsFair(w, c, from, seq(count, _ => Idle), bad)
  {
  }

  lemma SlotsFairMore(w: World, c: Call, from: nat, slots: seq<Slot>, bad: set<Prog>, bad': set<Prog>)
    requires SlotsFair(w, c, from, slots, bad) && bad <= bad'
    ensures SlotsFair(w, c, from, slots, bad')
  {
    forall i | 0 <= i < |slots| ensures SlotFair(w, c, from + i, slots[i], bad') {
      assert SlotFair(w, c, from + i, slots[i], bad);
    }
  }

  lemma SlotsFairNext(w: World, c: Call, from: nat, slots: seq<Slot>, i: nat, x: Slot, bad: set<Prog>, bad': set<Prog>)
    requires SlotsFair(w, c, from, slots, bad) && bad <= bad' && i < |slots| && SlotFair(w, c, from + i, x, bad')
    ensures SlotsFair(w, c, from, slots[i := x], bad')
  {
    SlotsFairMore(w, c, from, slots, bad, bad');
    var slots' := slots[i := x];
    forall j | 0 <= j < |slots'| ensures SlotFair(w, c, from + j, slots'[j], bad') {
      if j != i {
        assert SlotFair(w, c, from + j, slots[j], bad');
      }
    }
  }

  lemma SlotFairMore(w: World, c: Call, k: nat, slot: Slot, bad: set<Prog>, bad': set<Prog>)
    requires k < Count(c) && SlotFair(w, c, k, slot, bad) && bad <= bad'
    ensures SlotFair(w, c, k, slot, bad')
  {
  }

  lemma SlotFairAt(w: World, c: Call, from: nat, slots: seq<Slot>, i: nat, bad: set<Prog>)
    requires SlotsFair(w, c, from, slots, bad) && i < |slots|
    ensures from + i < Count(c) && SlotFair(w, c, from + i, slots[i], bad)
  {
  }

  lemma BrokenNext(slots: seq<Slot>, i: nat, x: Slot)
    requires i < |slots|
    ensures Broken in slots[i := x] ==> Broken in slots || x == Broken
  {
    var slots' := slots[i := x];
    if Broken in slots' {
      var j :| 0 <= j < |slots'| && slots'[j] == Broken;
      assert j == i || slots[j] == Broken;
    }
  }

  /** The results of a chunk that has ended without an error. */
  function ResultsOf(slots: seq<Slot>): seq<Visible> {
    seq(|slots|, i requires 0 <= i < |slots| => if slots[i].Got? then slots[i].v else PLACEHOLDER)
  }

  lemma ChunkRight(w: World, c: Call, from: nat, slots: seq<Slot>, bad: set<Prog>)
    requires SlotsFair(w, c, from, slots, bad) && AllFinished(slots) && Broken !in slots
    requires Clean(w, bad, ProgOf(c))
    ensures forall i :: 0 <= i < |slots| ==> ResultsOf(slots)[i] == Want(w, c, from + i)
  {
    forall i | 0 <= i < |slots| ensures ResultsOf(slots)[i] == Want(w, c, from + i) {
      assert slots[i] in slots && SlotFair(w, c, from + i, slots[i], bad);
    }
  }

  lemma MoreRight(w: World, c: Call, results: seq<Visible>, chunk: seq<Visible>)
    requires RightSoFar(w, c, results) && results != [] && |results| + |chunk| <= Count(c)
    requires forall i :: 0 <= i < |chunk| ==> chunk[i] == Want(w, c, |results| + i)
    ensures RightSoFar(w, c, results + chunk)
  {
    forall k | 0 <= k < |results + chunk| ensures (results + chunk)[k] == Want(w, c, k) {
      if k >= |results| {
        assert chunk[k - |results|] == Want(w, c, |results| + (k - |results|));
      }
    }
  }

  /** Request k, run on these files, shows this. */
  predicate RunShows(w: World, c: Call, k: nat, runnable: bool, files: Files, v: Visible)
    requires k < Count(c)
  {
    Output(w, ProgOf(c), runnable, LimitOf(w, c), Stdin(c, k), files) == Some(v)
  }

  /** What request k, run on these files, shows, if it is not refused. */
  function Shown(w: World, c: Call, k: nat, runnable: bool, files: Files): Option<Visible>
    requires k < Count(c)
  {
    Output(w, ProgOf(c), runnable, LimitOf(w, c), Stdin(c, k), files)
  }

  /**
   * One operation of the request with this key, when the cache does not fail: what becomes of its slot
   * and of the cache; a run shows `shown`.
   */
  predicate Turned(key: string, shown: Option<Visible>, slot: Slot, slot': Slot, store: map<string, Entry>,
          store': map<string, Entry>)
  {
    match slot
    case Idle =>
      store' == store && slot' == (match ResultHit(store, key) case Some(v) => Got(v) case None => Missed)
    case Missed => store' == store && (slot'.Broken? || (slot'.Ran? && shown == Some(slot'.v)))
    case Ran(v) => slot' == Got(v) && store' == if v.stderr.None? then store[key := ResultEntry(v)] else store
    case Got(_) => false
    case Broken => false
  }

  /** The keys of the requests of a chunk. */
  function KeysFrom(w: World, c: Call, from: nat, count: nat): (keys: seq<string>)
    requires from + count <= Count(c)
    ensures |keys| == count
  {
    seq(count, i requires 0 <= i < count => Key(w, c, from + i))
  }

  /** What the requests of a chunk show if each is run on its box. */
  function ShownFrom(w: World, c: Call, from: nat, runnable: bool, boxes: seq<nat>, files: map<nat, Files>):
      (shown: seq<Option<Visible>>)
    requires from + |boxes| <= Count(c) && forall x :: x in boxes ==> x in files
    ensures |shown| == |boxes|
  {
    seq(|boxes|, i requires 0 <= i < |boxes| => Shown(w, c, from + i, runnable, files[boxes[i]]))
  }

  /** The keys of the requests of a chunk, and what they show. */
  ghost predicate Sheet(w: World, c: Call, from: nat, runnable: bool, boxes: seq<nat>, files: map<nat, Files>,
          keys: seq<string>, shown: seq<Option<Visible>>)
  {
    && |keys| == |shown| == |boxes| && from + |boxes| <= Count(c)
    && forall i :: 0 <= i < |boxes| ==>
      && boxes[i] in files && keys[i] == Key(w, c, from + i)
      && shown[i] == Shown(w, c, from + i, runnable, files[boxes[i]])
  }

  lemma SheetOf(w: World, c: Call, from: nat, runnable: bool, boxes: seq<nat>, files: map<nat, Files>)
    requires from + |boxes| <= Count(c) && forall x :: x in boxes ==> x in files
    ensures Sheet(w, c, from, runnable, boxes, files, KeysFrom(w, c, from, |boxes|),
                  ShownFrom(w, c, from, runnable, boxes, files))
  {
  }

  lemma SheetAt(w: World, c: Call, from: nat, runnable: bool, boxes: seq<nat>, files: map<nat, Files>,
          keys: seq<string>, shown: seq<Option<Visible>>, i: nat)
    requires Sheet(w, c, from, runnable, boxes, files, keys, shown) && i < |boxes|
    ensures boxes[i] in files && keys[i] == Key(w, c, from + i)
    ensures shown[i] == Shown(w, c, from + i, runnable, files[boxes[i]])
  {
  }

  /** The requests that a chunk would run on raw containers are all in the cache. */
  predicate RawFound(keys: seq<string>, boxes: seq<nat>, raw: set<nat>, store: map<string, Entry>) {
    forall i :: 0 <= i < |keys| && i < |boxes| && boxes[i] in raw ==> ResultHit(store, keys[i]).Some?
  }

  /** None of them has run, and they are still in the cache. */
  predicate RawIdle(keys: seq<string>, slots: seq<Slot>, boxes: seq<nat>, raw: set<nat>, store: map<string, Entry>)
    requires |slots| == |boxes| == |keys|
  {
    forall i :: 0 <= i < |keys| && boxes[i] in raw ==>
      (slots[i].Idle? || slots[i].Got?) && ResultHit(store, keys[i]).Some?
  }

  lemma RawTurned(keys: seq<string>, slots: seq<Slot>, i: nat, x: Slot, boxes: seq<nat>, raw: set<nat>,
          shown: Option<Visible>, store: map<string, Entry>, store': map<string, Entry>)
    requires |slots| == |boxes| == |keys| && i < |slots| && RawIdle(keys, slots, boxes, raw, store)
    requires Turned(keys[i], shown, slots[i], x, store, store')
    ensures RawIdle(keys, slots[i := x], boxes, raw, store')
    ensures boxes[i] in raw ==> slots[i].Idle?
  {
    var slots' := slots[i := x];
    forall j | 0 <= j < |keys| && boxes[j] in raw
      ensures (slots'[j].Idle? || slots'[j].Got?) && ResultHit(store', keys[j]).Some?
    {
      assert slots[j].Idle? || slots[j].Got?;
    }
  }

  /** The first request of a chunk is not in the cache, and no other one of the chunk has its key. */
  predicate Lone(keys: seq<string>, store: map<string, Entry>) {
    keys != [] && ResultHit(store, keys[0]).None? && forall k :: 0 < k < |keys| ==> keys[k] != keys[0]
  }

  /** So it runs on its container. */
  predicate FirstRuns(key: string, shown: Option<Visible>, slot: Slot, store: map<string, Entry>) {
    && (slot.Idle? ==> ResultHit(store, key).None?)
    && (slot.Ran? || slot.Got? ==> shown == Some(slot.v))
  }

  lemma FirstTurned(keys: seq<string>, slots: seq<Slot>, i: nat, x: Slot, first: Option<Visible>,
          shown: Option<Visible>, store: map<string, Entry>, store': map<string, Entry>)
    requires i < |slots| == |keys| && FirstRuns(keys[0], first, slots[0], store)
    requires if i == 0 then shown == first else keys[i] != keys[0]
    requires Turned(keys[i], shown, slots[i], x, store, store')
    ensures FirstRuns(keys[0], first, slots[i := x][0], store')
  {
  }

  /** How a chunk stands that nobody interferes with; a run of its first request shows `first`. */
  ghost predicate Exactly(keys: seq<string>, slots: seq<Slot>, boxes: seq<nat>, raw: set<nat>, runnable: bool,
          first: Option<Visible>, store: map<string, Entry>, store': map<string, Entry>, spoilt: bool)
    requires |slots| == |boxes| == |keys|
  {
    && (!runnable ==> !spoilt)
    && (RawFound(keys, boxes, raw, store) ==> !spoilt && RawIdle(keys, slots, boxes, raw, store'))
    && (Lone(keys, store) ==> FirstRuns(keys[0], first, slots[0], store'))
  }

  lemma ExactlyTurned(keys: seq<string>, slots: seq<Slot>, i: nat, x: Slot, boxes: seq<nat>, raw: set<nat>,
          runnable: bool, shown: seq<Option<Visible>>, store: map<string, Entry>, before: map<string, Entry>,
          after: map<string, Entry>, spoilt: bool, spoils: bool)
    requires |slots| == |boxes| == |keys| == |shown| && i < |slots|
    requires spoils == (slots[i].Missed? && boxes[i] in raw && runnable && x.Ran?)
    ensures Turned(keys[i], shown[i], slots[i], x, before, after) &&
            Exactly(keys, slots, boxes, raw, runnable, shown[0], store, before, spoilt) ==>
              Exactly(keys, slots[i := x], boxes, raw, runnable, shown[0], store, after, spoilt || spoils)
  {
    if Turned(keys[i], shown[i], slots[i], x, before, after) &&
      Exactly(keys, slots, boxes, raw, runnable, shown[0], store, before, spoilt)
    {
      if RawFound(keys, boxes, raw, store) {
        RawTurned(keys, slots, i, x, boxes, raw, shown[i], before, after);
      }
      if Lone(keys, store) {
        FirstTurned(keys, slots, i, x, shown[0], shown[i], before, after);
      }
    }
  }

  lemma ExactlyStarts(keys: seq<string>, boxes: seq<nat>, raw: set<nat>, runnable: bool, first: Option<Visible>,
          store: map<string, Entry>)
    requires |boxes| == |keys|
    ensures Exactly(keys, seq(|keys|, _ => Idle), boxes, raw, runnable, first, store, store, false)
  {
  }

  /** What comes of such a chunk. */
  predicate ChunkExact(keys: seq<string>, boxes: seq<nat>, raw: set<nat>, runnable: bool, first: Option<Visible>,
          store: map<string, Entry>, r: Option<seq<Visible>>, spoilt: bool)
  {
    && (!runnable || RawFound(keys, boxes, raw, store) ==> !spoilt)
    && (Lone(keys, store) && r.Some? && r.value != [] ==> first == Some(r.value[0]))
  }

  lemma ExactlyEnds(keys: seq<string>, slots: seq<Slot>, boxes: seq<nat>, raw: set<nat>, runnable: bool,
          first: Option<Visible>, store: map<string, Entry>, store': map<string, Entry>, r: Option<seq<Visible>>,
          spoilt: bool)
    requires |slots| == |boxes| == |keys| && AllFinished(slots)
    requires r == if Broken in slots then None else Some(ResultsOf(slots))
    requires Exactly(keys, slots, boxes, raw, runnable, first, store, store', spoilt)
    ensures ChunkExact(keys, boxes, raw, runnable, first, store, r, spoilt)
  {
    if Lone(keys, store) && r.Some? {
      assert slots[0] in slots;
    }
  }

  /** One slot of a chunk has moved on. */
  lemma OneMoved(w: World, c: Call, from: nat, slots: seq<Slot>, i: nat, x: Slot, bad: set<Prog>, bad': set<Prog>)
    requires bad <= bad' && i < |slots| && Progress.SlotWork(x) < Progress.SlotWork(slots[i])
    requires SlotsFair(w, c, from, slots, bad) && SlotFair(w, c, from + i, x, bad')
    ensures SlotsFair(w, c, from, slots[i := x], bad')
    ensures Progress.SlotsWork(slots[i := x]) < Progress.SlotsWork(slots)
    ensures Broken in slots[i := x] ==> Broken in slots || x == Broken
  {
    SlotsFairNext(w, c, from, slots, i, x, bad, bad');
    Progress.SlotWorkDrops(slots, i, x);
    BrokenNext(slots, i, x);
  }

  /** Some slot still has something to do. */
  predicate Unfinished(slots: seq<Slot>) {
    exists i :: 0 <= i < |slots| && !Finished(slots[i])
  }

  // ---------------------------------------------------------------- batches

  function BatchOf(requests: seq<Request>): Call
    requires requests != []
  {
    NewCall(Batch, requests[0], requests[1..])
  }

  /** What a batch adds to the spoilt programs. */
  function Spoils(requests: seq<Request>, spoilt: bool): set<Prog>
    requires spoilt ==> requests != []
  {
    if spoilt then {ProgOf(BatchOf(requests))} else {}
  }

  lemma BatchOfIs(requests: seq<Request>)
    requires requests != []
    ensures Requests(BatchOf(requests)) == requests && ProgOf(BatchOf(requests)) == ProgramOf(requests[0])
    ensures Count(BatchOf(requests)) == |requests| && BatchOf(requests).kind.Batch?
    ensures BatchOf(requests).first == requests[0]
  {
  }

  lemma WorseSpoils(bad: set<Prog>, requests: seq<Request>, spoilt: bool)
    requires requests != []
    ensures bad + Spoils(requests, spoilt) == Worse(bad, BatchOf(requests), spoilt)
    ensures !spoilt ==> Worse(bad, BatchOf(requests), spoilt) == bad
  {
  }

  /** What a batch of a clean program has as results, and whether it goes on, are the answers. */
  lemma BatchAnswered(w: World, bad: set<Prog>, c: Call, out: Outcome, spoilt: bool)
    requires Clean(w, bad, ProgOf(c)) && c.kind.Batch?
    requires out.Ok? ==> |out.results| == Count(c)
    ensures out.Ok? && out.results[0] == Expected(w, c)[0] ==> Answers(w, c.first, c.first.stdin, out.results[0])
    ensures out.Ok? && out.results == Expected(w, c) ==> BatchAnswers(w, Requests(c), out.results)
    ensures EndsWell(w, c.first) <==> FirstEndsWell(w, c)
  {
    hide Answers, Fresh, OneDocument, FreshBuild, Trim, EndsWell;
    assert Stdins(c)[0] == Stdin(c, 0);
    FailedShows(w, ProgOf(c), LimitOf(w, c), Stdin(c, 0));
    EndsWellIs(w, c);
    if out.Ok? {
      OneExactly(w, c, 0, out.results[0]);
      ExpectedExactly(w, c, out.results);
    }
  }

  /** A first result that went well is the first of those wanted, whatever becomes of the others. */
  lemma FirstIsExpected(w: World, c: Call, prep: Prepared, first: Visible)
    requires c.kind.Batch? && KnowsBuild(w, ProgOf(c), prep.runnable, prep.stderr) && prep.stderr == ""
    requires Certain(ProgOf(c)) && first == Want(w, c, 0) && first.exitCode == 0
    ensures Expected(w, c)[0] == first
  {
    assert Stdins(c)[0] == Stdin(c, 0);
  }

  /** The files of the container that a batch takes first, if there is one. */
  function FirstFiles(files: map<nat, Files>, pool: Pool, key: string): Files {
    match Take(pool, key).1
    case Some(c) => if c in files then files[c] else map[]
    case None => map[]
  }

  /** The first request of the batch ends well. */
  predicate FirstEndsWell(w: World, c: Call) {
    !FailsToBuild(w, ProgOf(c)) && Want(w, c, 0).exitCode == 0
  }

  /** A batch that has no further permit to read and more than two requests. */
  predicate Starves(c: Call, permits: nat) {
    permits == 0 && Count(c) >= 3
  }

  /**
   * The batch will run its second request on a container it has not loaded: it is interpreted, its first
   * result is in the cache and good, and its second is not.
   */
  predicate Skips(w: World, c: Call, store: map<string, Entry>) {
    && !Compiled(ProgOf(c).lang) && Count(c) >= 2
    && ResultHit(store, Key(w, c, 0)).Some? && ResultHit(store, Key(w, c, 0)).value.exitCode == 0
    && ResultHit(store, Key(w, c, 1)).None?
  }

  /** No later request repeats the stdin of the second. */
  predicate Single(c: Call) {
    forall k :: 2 <= k < Count(c) ==> Stdin(c, k) != Stdin(c, 1)
  }

  /** What a batch returns when nobody interferes and nothing fails; `files` are those of its first container. */
  predicate Yields(w: World, c: Call, store: map<string, Entry>, files: Files, results: seq<Visible>) {
    && |results| == Count(c)
    && (!Skips(w, c, store) ==> results == Expected(w, c))
    && (Skips(w, c, store) && Single(c) ==> RunShows(w, c, 1, true, files, results[1]))
  }

  /** On a container with some files, what such a batch returns for its second request is wrong in any case. */
  lemma SkipsWrong(w: World, c: Call, store: map<string, Entry>) returns (files: Files)
    requires c.kind.Batch? && Skips(w, c, store) && Single(c) && Runs(w, ProgOf(c)) && FirstEndsWell(w, c)
    requires Sensitive(w, ProgOf(c), LimitOf(w, c), Stdin(c, 1))
    ensures forall results :: Yields(w, c, store, files, results) ==> results[1] != Expected(w, c)[1]
    ensures exists results :: Yields(w, c, store, files, results)
  {
    var p := ProgOf(c);
    files :| Show(w.exec(p.lang, p.ver, files, Stdin(c, 1)), LimitOf(w, c)) != Fresh(w, p, LimitOf(w, c), Stdin(c, 1));
    var v := Show(w.exec(p.lang, p.ver, files, Stdin(c, 1)), LimitOf(w, c));
    assert Yields(w, c, store, files, seq(Count(c), k => v));
    assert Stdins(c)[1] == Stdin(c, 1) && Stdins(c)[0] == Stdin(c, 0);
    assert Expected(w, c)[1] == Want(w, c, 1) != v;
  }

  /**
   * Whatever is left in its first container, an undisturbed batch returns the map of its runs if and only
   * if its program is compiled, or its first result is not in the cache or not good, or its second
   * result is in the cache as well.
   */
  lemma BatchRightExactly(w: World, c: Call, store: map<string, Entry>)
    requires c.kind.Batch? && Count(c) >= 2 && Single(c) && Runs(w, ProgOf(c))
    requires Sensitive(w, ProgOf(c), LimitOf(w, c), Stdin(c, 1)) && FirstEndsWell(w, c)
    ensures (forall files, results :: Yields(w, c, store, files, results) ==> results == Expected(w, c)) <==>
            Compiled(ProgOf(c).lang) || ResultHit(store, Key(w, c, 0)).None?
            || ResultHit(store, Key(w, c, 0)).value.exitCode != 0 || ResultHit(store, Key(w, c, 1)).Some?
  {
    if Skips(w, c, store) {
      var files := SkipsWrong(w, c, store);
      var results :| Yields(w, c, store, files, results);
      assert results[1] != Expected(w, c)[1];
    }
  }

  /** A batch whose build fails has nothing in the cache, and is refused its first run without stdin. */
  predicate Told(w: World, c: Call, out: Outcome, entry: Pool, pool: Pool)
    requires FailsToBuild(w, ProgOf(c))
  {
    var p := ProgOf(c);
    var report := [CompileError(FreshBuild(w, p).stderr)] + seq(|c.rest|, _ => PLACEHOLDER);
    if c.first.stdin.None? then out.Err? && pool == Take(entry, KeyOf(p)).0
    else (out == Ok(report) && pool == entry)
  }

  /** If there is a container for such a batch, that is what comes of it. */
  predicate ToldIfAny(w: World, c: Call, bad: set<Prog>, out: Outcome, entry: Pool, pool: Pool) {
    FailsToBuild(w, ProgOf(c)) && Clean(w, bad, ProgOf(c)) && Accepted(c) && Depth(entry, KeyOf(ProgOf(c))) > 0 ==>
      Told(w, c, out, entry, pool)
  }

  lemma ToldNothing(w: World, c: Call, entry: Pool, pool: Pool)
    requires FailsToBuild(w, ProgOf(c))
    ensures c.first.stdin.None? && pool == Take(entry, KeyOf(ProgOf(c))).0 ==> Told(w, c, Err, entry, pool)
  {
  }

  lemma ToldError(w: World, c: Call, prep: Prepared, first: Visible, out: Outcome, entry: Pool, pool: Pool)
    requires FailsToBuild(w, ProgOf(c)) && Certain(ProgOf(c)) && KnowsBuild(w, ProgOf(c), prep.runnable, prep.stderr)
    requires out == Ok([if prep.stderr != "" then CompileError(prep.stderr) else first]
                       + seq(|c.rest|, _ => PLACEHOLDER))
    ensures !Refused(c, 0, prep) && pool == entry ==> Told(w, c, out, entry, pool)
  {
    hide Trim, OneDocument, FreshBuild;
  }

  /** A chunk no longer than its containers runs only its first request on the first of them. */
  lemma FirstFound(keys: seq<string>, containers: seq<nat>, raw: set<nat>, store: map<string, Entry>)
    requires containers != [] && Distinct(containers) && raw <= {containers[0]} && 0 < |keys| <= |containers|
    requires raw != {} ==> ResultHit(store, keys[0]).Some?
    ensures RawFound(keys, Used(containers, |keys|), raw, store)
  {
    OneEach(containers, |keys|);
    var boxes := Used(containers, |keys|);
    forall i | 0 <= i < |keys| && i < |boxes| && boxes[i] in raw ensures ResultHit(store, keys[i]).Some? {
      assert boxes[i] == containers[i];
    }
  }

  lemma SingleIsLone(w: World, c: Call, count: nat, store: map<string, Entry>)
    requires Digests(w) && OfPair(ProgOf(c)) && Single(c) && 0 < count && 1 + count <= Count(c)
    requires ResultHit(store, Key(w, c, 1)).None?
    ensures Lone(KeysFrom(w, c, 1, count), store)
  {
    var keys := KeysFrom(w, c, 1, count);
    forall k | 0 < k < count ensures keys[k] != keys[0] {
      KeysOfCall(w, c, 1 + k, 1);
    }
  }

  /** A chunk that has its results adds them to the others; a refused run shows that the batch cannot be done. */
  lemma ChunkDone(w: World, c: Call, prep: Prepared, sofar: seq<Visible>, count: nat, chunk: Option<seq<Visible>>,
          bad: set<Prog>)
    requires sofar != [] && |sofar| + count <= Count(c) && (chunk.Some? ==> |chunk.value| == count)
    requires KnowsBuild(w, ProgOf(c), prep.runnable, prep.stderr) && prep.stderr == ""
    requires Clean(w, bad, ProgOf(c)) ==> RightSoFar(w, c, sofar)
    requires chunk.Some? && Clean(w, bad, ProgOf(c)) ==>
      forall i :: 0 <= i < count ==> chunk.value[i] == Want(w, c, |sofar| + i)
    ensures chunk.Some? && Clean(w, bad, ProgOf(c)) ==> RightSoFar(w, c, sofar + chunk.value)
    ensures SomeRefused(c, |sofar|, |sofar| + count, prep) && c.kind.Batch? ==> !Doable(w, c)
  {
    if chunk.Some? && Clean(w, bad, ProgOf(c)) {
      MoreRight(w, c, sofar, chunk.value);
    }
    if SomeRefused(c, |sofar|, |sofar| + count, prep) && c.kind.Batch? {
      SomeUndoable(w, c, |sofar|, |sofar| + count, prep);
    }
  }

  /**
   * What is known of a chunk after `sofar` results: whether it spoilt the program, and what the second
   * request of the batch, which shows `second` on the first container, has as its result.
   */
  predicate MoreExact(w: World, c: Call, sofar: nat, width: nat, mine: seq<nat>, raw: set<nat>, runnable: bool,
          second: Option<Visible>, store: map<string, Entry>, results: Option<seq<Visible>>, spoilt: bool)
    requires mine != [] && Count(c) >= 2
  {
    var hit := ResultHit(store, Key(w, c, 1));
    && (!runnable || raw == {} ==> !spoilt)
    && (sofar == 1 && width <= |mine| && raw <= {mine[0]} && hit.Some? ==> !spoilt)
    && (sofar == 1 && Single(c) && hit.None? && results.Some? ==>
      |results.value| > 1 && second == Some(results.value[1]))
  }

  lemma MoreIsExact(w: World, c: Call, sofar: seq<Visible>, count: nat, width: nat, mine: seq<nat>, raw: set<nat>,
          runnable: bool, first: Option<Visible>, store: map<string, Entry>, chunk: Option<seq<Visible>>, spoilt: bool)
    requires Digests(w) && OfPair(ProgOf(c)) && mine != [] && Distinct(mine) && sofar != []
    requires 0 < count <= width && |sofar| + count <= Count(c) && (chunk.Some? ==> |chunk.value| == count)
    ensures
      ChunkExact(KeysFrom(w, c, |sofar|, count), Used(mine, count), raw, runnable, first, store, chunk, spoilt) ==>
        MoreExact(w, c, |sofar|, width, mine, raw, runnable, first, store,
                  if chunk.Some? then Some(sofar + chunk.value) else None, spoilt)
  {
    var keys := KeysFrom(w, c, |sofar|, count);
    if |sofar| == 1 {
      assert keys[0] == Key(w, c, 1);
      if width <= |mine| && raw <= {mine[0]} && ResultHit(store, Key(w, c, 1)).Some? {
        FirstFound(keys, mine, raw, store);
      }
      if Single(c) && ResultHit(store, Key(w, c, 1)).None? {
        SingleIsLone(w, c, count, store);
      }
    }
  }

  lemma MoreNone(w: World, c: Call, sofar: nat, width: nat, mine: seq<nat>, raw: set<nat>, runnable: bool,
          second: Option<Visible>, store: map<string, Entry>, results: Option<seq<Visible>>, spoilt: bool)
    requires mine != [] && Count(c) >= 2
    ensures MoreExact(w, c, sofar, width, mine, raw, runnable, second, store, results, spoilt) ==>
            MoreExact(w, c, sofar, width, mine, raw, runnable, second, store, None, spoilt)
  {
  }

  /** The same of the whole loop so far: the first chunk began with raw0 raw and this store. */
  predicate LoopExact(w: World, c: Call, mine: seq<nat>, raw0: set<nat>, raw: set<nat>, runnable: bool,
          second: Option<Visible>, store: map<string, Entry>, results: seq<Visible>, spoilt: bool)
    requires mine != []
  {
    && (|results| == 1 ==> !spoilt && raw == raw0)
    && (1 < |results| < Count(c) && runnable ==> raw == {})
    && (Count(c) >= 2 && (raw0 <= {mine[0]} || !runnable) ==>
      var hit := ResultHit(store, Key(w, c, 1));
      && (!runnable || raw0 == {} || hit.Some? ==> !spoilt)
      && (|results| > 1 && Single(c) && hit.None? ==> second == Some(results[1])))
  }

  lemma LoopStarts(w: World, c: Call, mine: seq<nat>, raw: set<nat>, runnable: bool, second: Option<Visible>,
          store: map<string, Entry>, first: Visible)
    requires mine != []
    ensures LoopExact(w, c, mine, raw, raw, runnable, second, store, [first], false)
  {
  }

  lemma LoopMore(w: World, c: Call, mine: seq<nat>, raw0: set<nat>, raw: set<nat>, raw': set<nat>, runnable: bool,
          second: Option<Visible>, other: Option<Visible>, store: map<string, Entry>, store': map<string, Entry>,
          sofar: seq<Visible>, results: seq<Visible>, spoilt: bool, spoils: bool, now: seq<nat>)
    requires mine != [] && now != [] && sofar != [] && Count(c) >= 2
    requires sofar <= results && |sofar| < |results| <= Count(c)
    ensures
      && LoopExact(w, c, mine, raw0, raw, runnable, second, store, sofar, spoilt)
      && (|sofar| == 1 ==> now == mine && other == second && store' == store)
      && MoreExact(w, c, |sofar|, |mine|, now, raw, runnable, other, store', Some(results), spoils)
      && (|results| < Count(c) && runnable ==> raw' == {}) ==>
        LoopExact(w, c, mine, raw0, raw', runnable, second, store, results, spoilt || spoils)
  {
  }

  /** What comes of the loop. */
  predicate LoopCame(w: World, c: Call, box: nat, raw: set<nat>, runnable: bool, second: Option<Visible>,
          store: map<string, Entry>, out: Outcome, spoilt: bool)
    requires out.Ok? ==> |out.results| == Count(c)
  {
    if Count(c) == 1 then !spoilt
    else
      var hit := ResultHit(store, Key(w, c, 1));
      && (!runnable || raw == {} || hit.Some? ==> !spoilt)
      && (Single(c) && hit.None? && out.Ok? ==> second == Some(out.results[1]))
  }

  lemma LoopEnds(w: World, c: Call, mine: seq<nat>, raw0: set<nat>, raw: set<nat>, runnable: bool,
          second: Option<Visible>, store: map<string, Entry>, results: seq<Visible>, spoilt: bool, out: Outcome)
    requires mine != [] && 1 <= |results| <= Count(c)
    requires out.Ok? ==> out.results == results && |results| == Count(c)
    ensures
      LoopExact(w, c, mine, raw0, raw, runnable, second, store, results, spoilt) && (raw0 <= {mine[0]} || !runnable) ==>
        LoopCame(w, c, mine[0], raw0, runnable, second, store, out, spoilt)
  {
  }

  lemma CameSame(w: World, c: Call, box: nat, raw: set<nat>, raw': set<nat>, runnable: bool, second: Option<Visible>,
          store: map<string, Entry>, out: Outcome, spoilt: bool)
    requires (out.Ok? ==> |out.results| == Count(c)) && (raw' == raw || !runnable)
    ensures LoopCame(w, c, box, raw', runnable, second, store, out, spoilt) ==>
      LoopCame(w, c, box, raw, runnable, second, store, out, spoilt)
  {
  }

  /** Which way a batch goes after its first request. */
  lemma EndsWellExactly(w: World, c: Call, prep: Prepared, first: Visible, bad: set<Prog>)
    requires KnowsBuild(w, ProgOf(c), prep.runnable, prep.stderr)
    requires Clean(w, bad, ProgOf(c)) && prep.stderr == "" ==> first == Want(w, c, 0)
    ensures Clean(w, bad, ProgOf(c)) ==> (FirstEndsWell(w, c) <==> prep.stderr == "" && first.exitCode == 0)
    ensures FailsToBuild(w, ProgOf(c)) && Certain(ProgOf(c)) ==>
      !prep.runnable && prep.stderr == FreshBuild(w, ProgOf(c)).stderr != ""
  {
  }

  /** What a batch does that nobody interferes with and in which nothing fails. */
  predicate BatchCame(w: World, c: Call, files: Files, store: map<string, Entry>, out: Outcome, spoilt: bool)
    requires out.Ok? ==> |out.results| == Count(c)
  {
    && (!Skips(w, c, store) ==> !spoilt)
    && (Skips(w, c, store) && Single(c) && out.Ok? ==> RunShows(w, c, 1, true, files, out.results[1]))
  }

  /** The first result, and the loop, make that. */
  lemma CameBy(w: World, c: Call, prep: Prepared, first: Visible, raw: bool, box: nat, files: Files, left: Files,
          store: map<string, Entry>, store': map<string, Entry>, out: Outcome, spoilt: bool)
    requires KnowsBuild(w, ProgOf(c), prep.runnable, prep.stderr) && (out.Ok? ==> |out.results| == Count(c))
    requires first.exitCode == 0
    ensures var second := if Count(c) >= 2 then Shown(w, c, 1, prep.runnable, left) else None;
      && FoundBy(w, c, first, raw, store, store') && (raw ==> left == files)
      && LoopCame(w, c, box, if raw then {box} else {}, prep.runnable, second, store', out, spoilt) ==>
        BatchCame(w, c, files, store, out, spoilt)
  {
  }

  /** A batch that is cut short, or has no first result, has not run anything else. */
  lemma CameShort(w: World, c: Call, prep: Prepared, first: Visible, raw: bool, files: Files,
          store: map<string, Entry>, store': map<string, Entry>, out: Outcome)
    requires KnowsBuild(w, ProgOf(c), prep.runnable, prep.stderr) && (out.Ok? ==> |out.results| == Count(c))
    requires prep.stderr != "" || first.exitCode != 0
    ensures FoundBy(w, c, first, raw, store, store') ==> BatchCame(w, c, files, store, out, false)
  {
  }
}
