/**
 * Runs from a fresh start in which no operation fails and a result is wrong, missing or lost all the
 * same: first in every world, and at the end in small ones.
 */
module Failures {
  import opened Options
  import opened Text
  import opened Platform
  import opened Keys
  import opened Store
  import opened Custody
  import opened Engine
  import opened Invariants
  import opened Reachability
  import opened Theorems
  import opened Witness
  import opened Worlds

  import Shell

  // ---------------------------------------------------------------- starting

  /** The service has just started with an empty cache and has a container for this key. */
  ghost predicate Started(w: World, s: State, key: string) {
    && WorldOk(w) && w.total > 0 && Init(w, s) && s.redis == map[] && key in s.cu.pool && s.cu.pool[key] != []
  }

  /** The container taken first. */
  function Top(s: State, key: string): nat
    requires key in s.cu.pool && s.cu.pool[key] != []
  {
    s.cu.pool[key][|s.cu.pool[key]| - 1]
  }

  lemma StartedRests(w: World, s: State, key: string, expiry: bool)
    requires Started(w, s, key)
    ensures AtRest(w, expiry, w.total, key, s.cu.pool[key], s.files, map[], {}) && Top(s, key) in s.files
    ensures key in PoolKeys() && forall x :: x in s.cu.pool[key] ==> x in s.files
    ensures forall x :: x in s.files ==> s.files[x] == map[]
  {
    SmoothStart(w, s, expiry);
    forall x | x in s.cu.pool[key] ensures x in s.files {
      assert x in s.cu.place.Keys && x in w.home.Keys;
    }
    assert Rests(s, w.total, key, s.cu.pool[key], s.files, map[], {});
  }

  /** The run behind such an end. */
  lemma OverRuns(w: World, expiry: bool, kind: Kind, first: Request, rest: seq<Request>, out: Outcome, stale: set<Prog>)
    returns (trace: seq<State>, events: seq<Event>, id: nat)
    requires Over(w, expiry, kind, first, rest, out, stale)
    ensures Run(w, trace, events) && |trace| > 0 && forall i :: 0 <= i < |events| ==> Fine(events[i], expiry)
    ensures Ended(trace[|trace| - 1], id, kind, first, rest, out) && trace[|trace| - 1].stale == stale
  {
    hide Init, Enabled, Step, Ended;
    var s: State, n: nat :| Smooth(w, s, expiry) && Ended(s, n, kind, first, rest, out) && s.stale == stale;
    trace, events :| SmoothRun(w, s, expiry, trace, events);
    id := n;
  }

  predicate Tidy(p: Prog) {
    Trim(p.lang) == p.lang && Trim(p.ver) == p.ver && Trim(p.code) == p.code
  }

  function Req(p: Prog, stdin: Option<string>, timeout: Option<nat>): Request {
    Request(p.lang, p.ver, p.code, stdin, timeout)
  }

  /** A container where the source of an interpreted program was just written gives its fresh result. */
  lemma SourcedRuns(w: World, p: Prog, limit: nat, stdin: Option<string>, files: Files)
    requires Local(w) && Interpreted(p.lang)
    ensures Output(w, p, true, limit, stdin, Sourced(p, files)) == Some(Fresh(w, p, limit, stdin))
  {
    LoadedRuns(w, p, Sourced(p, files), stdin);
  }

  // ---------------------------------------------------------------- the early lookup

  /** `execute` with the limit 1.0, and then the same request without one: the early lookup finds the result. */
  lemma EarlyAnswer(w: World, s: State, p: Prog, stdin: Option<string>)
    requires Started(w, s, KeyOf(p)) && Tidy(p) && Interpreted(p.lang)
    requires Fresh(w, p, w.second, stdin).stderr.None?
    ensures Over(w, false, Handled, Req(p, stdin, None), [], Ok([Fresh(w, p, w.second, stdin)]), {})
  {
    hide Trim, ResultKey, PoolKeys, Init, AtRest, Over, Fresh, Output;
    var c, stack := NewCall(Direct, Req(p, stdin, Some(w.second)), []), s.cu.pool[KeyOf(p)];
    var r := Fresh(w, p, w.second, stdin);
    StartedRests(w, s, KeyOf(p), false);
    SourcedRuns(w, p, w.second, stdin, s.files[Top(s, KeyOf(p))]);
    Solo(w, false, c, r, w.total, stack, s.files, map[], {});
    EarlyGoes(w, false, Req(p, stdin, None), r, w.total, KeyOf(p), stack, LoadedTop(p, stack, s.files),
              StoredIn(w, map[], c, 0, r), {});
  }

  /** A call behind the early lookup has returned, and its program is clean. */
  ghost predicate Answered(w: World, trace: seq<State>, events: seq<Event>, i: nat, id: nat, rs: seq<Visible>) {
    && Run(w, trace, events) && i < |trace| && id < |trace[i].calls| && trace[i].calls[id].kind.Handled?
    && trace[i].calls[id].phase == Done(Ok(rs)) && Clean(w, trace[i].stale, ProgOf(trace[i].calls[id]))
  }

  /** In every run, every such call returned what `execute` gives on a fresh container. */
  ghost predicate EarlyAlwaysRight(w: World) {
    forall trace: seq<State>, events: seq<Event>, i: nat, id: nat, rs: seq<Visible> ::
      Answered(w, trace, events, i, id, rs) ==> rs == Expected(w, trace[i].calls[id])
  }

  /** The program takes longer than DEFAULT_TIMEOUT and no longer than 1.0. */
  predicate Between(w: World, p: Prog, stdin: Option<string>) {
    Interpreted(p.lang) &&
    var r := w.exec(p.lang, p.ver, Program(w, p), stdin);
    r.stderr == "" && w.defaultTimeout < r.time <= w.second
  }

  lemma EarlyFails(w: World, s: State, p: Prog, stdin: Option<string>)
    requires Started(w, s, KeyOf(p)) && Tidy(p) && Between(w, p, stdin)
    ensures !EarlyAlwaysRight(w)
  {
    hide Init, Run;
    var r := Fresh(w, p, w.second, stdin);
    EarlyAnswer(w, s, p, stdin);
    var trace, events, id := OverRuns(w, false, Handled, Req(p, stdin, None), [], Ok([r]), {});
    var i := |trace| - 1;
    assert ProgOf(trace[i].calls[id]) == p;
    assert Answered(w, trace, events, i, id, [r]);
    assert Expected(w, trace[i].calls[id]) == [Fresh(w, p, w.defaultTimeout, stdin)];
  }

  /**
   * The early lookup takes the limit 1.0 for an absent timeout. What it finds is the result that `execute`
   * gives, in every run, if and only if 1.0 is no more than DEFAULT_TIMEOUT; if it is more, some program
   * that the service has a container for is taken to run between the two.
   */
  lemma EarlyLookupExactly(w: World, s: State, p: Prog, stdin: Option<string>)
    requires Started(w, s, KeyOf(p)) && Tidy(p) && (w.second > w.defaultTimeout ==> Between(w, p, stdin))
    ensures EarlyAlwaysRight(w) <==> w.second <= w.defaultTimeout
  {
    if w.second > w.defaultTimeout {
      EarlyFails(w, s, p, stdin);
    } else {
      forall trace: seq<State>, events: seq<Event>, i: nat, id: nat, rs: seq<Visible> |
        Answered(w, trace, events, i, id, rs)
        ensures rs == Expected(w, trace[i].calls[id])
      {
        CacheTransparency(w, trace, events, i, id, rs);
      }
    }
  }

  // ---------------------------------------------------------------- a container not loaded again

  lemma ProgramKeys(w: World, p: Prog, q: Prog, stdin: Option<string>)
    requires Digests(w) && KeyOf(p) in PoolKeys() && (p != q || stdin.Some?)
    ensures ResultKey(w, p, w.defaultTimeout, stdin) != ResultKey(w, q, w.defaultTimeout, None)
  {
    hide PoolKeys, ResultKey;
    PoolKeyUnique(p.lang, p.ver);
    if ResultKey(w, p, w.defaultTimeout, stdin) == ResultKey(w, q, w.defaultTimeout, None) {
      ResultKeyUnique(w, Origin(p, w.defaultTimeout, stdin), q, w.defaultTimeout, None);
    }
  }

  function LeftByTwo(s: State, p: Prog, q: Prog): map<nat, Files>
    requires KeyOf(p) in s.cu.pool && s.cu.pool[KeyOf(p)] != [] && Top(s, KeyOf(p)) in s.files
  {
    LoadedTop(q, s.cu.pool[KeyOf(p)], LoadedTop(p, s.cu.pool[KeyOf(p)], s.files))
  }

  function CachedByTwo(w: World, p: Prog, q: Prog): map<string, Entry> {
    map[ResultKey(w, p, w.defaultTimeout, None) := ResultEntry(Fresh(w, p, w.defaultTimeout, None)),
        ResultKey(w, q, w.defaultTimeout, None) := ResultEntry(Fresh(w, q, w.defaultTimeout, None))]
  }

  /** What happened before: the program and then another one were executed on the container. */
  lemma TwoSolos(w: World, s: State, p: Prog, q: Prog)
    requires Started(w, s, KeyOf(p)) && Top(s, KeyOf(p)) in s.files && Tidy(p) && Tidy(q) && Interpreted(p.lang)
    requires q.lang == p.lang && q.ver == p.ver && q.code != p.code
    requires Fresh(w, p, w.defaultTimeout, None).stderr.None? && Fresh(w, q, w.defaultTimeout, None).stderr.None?
    ensures AtRest(w, false, w.total, KeyOf(p), s.cu.pool[KeyOf(p)], LeftByTwo(s, p, q), CachedByTwo(w, p, q), {})
  {
    hide Trim, ResultKey, PoolKeys, Init, AtRest, Fresh, Output;
    var stack, box := s.cu.pool[KeyOf(p)], Top(s, KeyOf(p));
    var c, d := NewCall(Direct, Req(p, None, None), []), NewCall(Direct, Req(q, None, None), []);
    var files, redis := LoadedTop(p, stack, s.files), StoredIn(w, map[], c, 0, Fresh(w, p, w.defaultTimeout, None));
    StartedRests(w, s, KeyOf(p), false);
    SourcedRuns(w, p, w.defaultTimeout, None, s.files[box]);
    Solo(w, false, c, Fresh(w, p, w.defaultTimeout, None), w.total, stack, s.files, map[], {});
    SourcedRuns(w, q, w.defaultTimeout, None, files[box]);
    ProgramKeys(w, q, p, None);
    Solo(w, false, d, Fresh(w, q, w.defaultTimeout, None), w.total, stack, files, redis, {});
  }

  /** The batch of p that asks twice, without and with stdin. */
  function Twice(p: Prog, stdin: string): Call {
    NewCall(Kind.Batch, Req(p, None, None), [Req(p, Some(stdin), None)])
  }

  lemma TwiceIsOf(w: World, p: Prog, stdin: string)
    requires Tidy(p) && Interpreted(p.lang)
    ensures var c := Twice(p, stdin);
      && ProgOf(c) == p && Accepted(c) && Key(w, c, 0) == ResultKey(w, p, w.defaultTimeout, None)
      && Key(w, c, 1) == ResultKey(w, p, w.defaultTimeout, Some(stdin))
  {
    hide ResultKey;
  }

  lemma TwoSolosMiss(w: World, p: Prog, q: Prog, stdin: string)
    requires Digests(w) && KeyOf(p) in PoolKeys() && p != q
    ensures ResultHit(CachedByTwo(w, p, q), ResultKey(w, p, w.defaultTimeout, None))
            == Some(Fresh(w, p, w.defaultTimeout, None))
    ensures ResultHit(CachedByTwo(w, p, q), ResultKey(w, p, w.defaultTimeout, Some(stdin))).None?
  {
    hide PoolKeys, ResultKey, Fresh;
    ProgramKeys(w, p, q, None);
    ProgramKeys(w, p, q, Some(stdin));
    ProgramKeys(w, p, p, Some(stdin));
  }

  /** The container still has the source of q, so what p runs there is q. */
  lemma LeftIsOther(w: World, s: State, p: Prog, q: Prog, stdin: Option<string>)
    requires KeyOf(p) in s.cu.pool && s.cu.pool[KeyOf(p)] != [] && Top(s, KeyOf(p)) in s.files
    requires Local(w) && Interpreted(p.lang) && q.lang == p.lang && q.ver == p.ver
    ensures Top(s, KeyOf(p)) in LeftByTwo(s, p, q)
    ensures var files := LeftByTwo(s, p, q)[Top(s, KeyOf(p))];
      Output(w, p, true, w.defaultTimeout, stdin, files) == Some(Fresh(w, q, w.defaultTimeout, stdin))
  {
    var files := LoadedTop(p, s.cu.pool[KeyOf(p)], s.files)[Top(s, KeyOf(p))];
    SourcedRuns(w, q, w.defaultTimeout, stdin, files);
  }

  /**
   * `execute` p, `execute` q, and then a batch that asks for p twice: its second result is that of q, in
   * every world, whichever two programs of one language these are.
   */
  lemma Usurped(w: World, s: State, p: Prog, q: Prog, stdin: string)
    requires Started(w, s, KeyOf(p)) && Tidy(p) && Tidy(q) && Interpreted(p.lang)
    requires q.lang == p.lang && q.ver == p.ver && q.code != p.code
    requires Fresh(w, p, w.defaultTimeout, None).stderr.None? && Fresh(w, q, w.defaultTimeout, None).stderr.None?
    requires Fresh(w, p, w.defaultTimeout, None).exitCode == 0
    ensures Over(w, false, Kind.Batch, Req(p, None, None), [Req(p, Some(stdin), None)],
                 Ok([Fresh(w, p, w.defaultTimeout, None), Fresh(w, q, w.defaultTimeout, Some(stdin))]), {p})
  {
    hide Init, AtRest, Over, Key, Trim, ResultKey, Fresh, Output, PoolKeys, Accepted, LeftByTwo, CachedByTwo;
    var r, r2 := Fresh(w, p, w.defaultTimeout, None), Fresh(w, q, w.defaultTimeout, Some(stdin));
    StartedRests(w, s, KeyOf(p), false);
    TwoSolos(w, s, p, q);
    TwiceIsOf(w, p, stdin);
    TwoSolosMiss(w, p, q, stdin);
    LeftIsOther(w, s, p, q, Some(stdin));
    PairGoes(w, false, Twice(p, stdin), r, r2, w.total, s.cu.pool[KeyOf(p)], LeftByTwo(s, p, q), CachedByTwo(w, p, q));
  }

  lemma SmoothInv(w: World, s: State, expiry: bool)
    requires WorldOk(w) && Smooth(w, s, expiry)
    ensures Inv(w, s)
  {
    hide Inv, Run, WorldOk;
    var trace: seq<State>, events: seq<Event> :| SmoothRun(w, s, expiry, trace, events);
    assert |trace| > 0 by { assert Run(w, trace, events) ==> |trace| > 0 by { RunHasState(w, trace, events); } }
    RunKeeps(w, trace, events, |trace| - 1);
  }

  lemma RunHasState(w: World, trace: seq<State>, events: seq<Event>)
    ensures Run(w, trace, events) ==> |trace| > 0
  {
  }

  /** A batch is about to look its first result up; with what its container has, its second run will be wrong. */
  ghost predicate WrongFrom(w: World, s: State, id: nat) {
    AtFirst(w, s, id, 1) && Box(s, id, 0) in s.files && !RightAfterFirst(w, s, id, 1, s.files[Box(s, id, 0)])
  }

  /** Such a run leads to a state like that: the contents that make it wrong are not only possible, but reached. */
  lemma FirstReached(w: World, s: State, p: Prog, q: Prog, stdin: string) returns (t: State, n: nat)
    requires Started(w, s, KeyOf(p)) && Tidy(p) && Tidy(q) && Interpreted(p.lang)
    requires q.lang == p.lang && q.ver == p.ver && q.code != p.code
    requires Fresh(w, p, w.defaultTimeout, None).stderr.None? && Fresh(w, q, w.defaultTimeout, None).stderr.None?
    requires Fresh(w, p, w.defaultTimeout, Some(stdin)) != Fresh(w, q, w.defaultTimeout, Some(stdin))
    ensures Smooth(w, t, false) && WrongFrom(w, t, n)
  {
    hide Init, AtRest, Over, Trim, ResultKey, Fresh, Output, PoolKeys, Accepted, LeftByTwo, CachedByTwo, Inv, Smooth;
    hide RightAfterFirst;
    var c, stack := Twice(p, stdin), s.cu.pool[KeyOf(p)];
    StartedRests(w, s, KeyOf(p), false);
    TwoSolos(w, s, p, q);
    TwiceIsOf(w, p, stdin);
    TwoSolosMiss(w, p, q, stdin);
    LeftIsOther(w, s, p, q, Some(stdin));
    OpenedGoes(w, false, c, w.total, stack, LeftByTwo(s, p, q), CachedByTwo(w, p, q), {});
    var v := Opened(c, w.total - 1, stack, LeftByTwo(s, p, q), CachedByTwo(w, p, q), {});
    t, n :| Smooth(w, t, false) && Appears(t, n, v);
    SmoothInv(w, t, false);
    FirstUnloaded(w, t, n, 1, t.files[Box(t, n, 0)]);
  }

  // ---------------------------------------------------------------- no container

  /** A batch that has the only permit, with three requests or more, the second with a stdin of its own. */
  ghost predicate Alone(w: World, s: State, c: Call) {
    && Started(w, s, KeyOf(ProgOf(c))) && w.total == 1 && c == NewCall(Kind.Batch, c.first, c.rest) && |c.rest| >= 2
    && Interpreted(ProgOf(c).lang) && Accepted(c) && Stdin(c, 0) != Stdin(c, 1)
  }

  lemma SecondMisses(w: World, c: Call, r: Visible)
    requires Digests(w) && KeyOf(ProgOf(c)) in PoolKeys() && c.rest != [] && Stdin(c, 0) != Stdin(c, 1)
    ensures ResultHit(StoredIn(w, map[], c, 0, r), Key(w, c, 1)).None?
  {
    hide PoolKeys, Key;
    KeysOfCall(w, c, 0, 1);
  }

  /** In every world with one permit such a batch ends in a fault once its first request has succeeded. */
  lemma Starves(w: World, s: State, c: Call)
    requires Alone(w, s, c) && Want(w, c, 0).exitCode == 0
    ensures Over(w, false, Kind.Batch, c.first, c.rest, Fault, {})
  {
    hide Init, Busy, AtRest, Over, Key, Trim, Fresh, Output, PoolKeys, Accepted, StoredIn, RanFirst;
    var p, stack := ProgOf(c), s.cu.pool[KeyOf(ProgOf(c))];
    StartedRests(w, s, KeyOf(p), false);
    var files := s.files[Top(s, KeyOf(p))];
    SourcedRuns(w, p, LimitOf(w, c), Stdin(c, 0), files);
    SourcedRuns(w, p, LimitOf(w, c), Stdin(c, 1), files);
    FirstGoes(w, false, c, Want(w, c, 0), 1, stack, s.files, map[], {});
    SecondMisses(w, c, Want(w, c, 0));
    StarvedGoes(w, false, c, Want(w, c, 0), Want(w, c, 1), stack, s.files, map[], {});
  }

  // ---------------------------------------------------------------- a build error not reported

  /** In every world: the batch of a program that does not build ends with an error and its container is lost. */
  lemma BuildErrorUnreported(w: World, s: State, c: Call)
    requires Started(w, s, KeyOf(ProgOf(c))) && c == NewCall(Kind.Batch, c.first, c.rest)
    requires FailsToBuild(w, ProgOf(c)) && c.first.stdin.None?
    ensures OverWithout(w, false, Kind.Batch, c.first, c.rest, Top(s, KeyOf(ProgOf(c))))
  {
    hide Init, AtRest, OverWithout, Key, ArtifactKey, Trim, PoolKeys;
    var p := ProgOf(c);
    StartedRests(w, s, KeyOf(p), false);
    var e := FreshBuild(w, p).stderr;
    assert BuildIn(w, p, s.files[Top(s, KeyOf(p))]) == FreshBuild(w, p);
    UnbuiltGoes(w, false, c, e, w.total, s.cu.pool[KeyOf(p)], s.files, map[], {});
  }

  // ---------------------------------------------------------------- an artifact that has expired

  /** A batch of three requests with stdin of their own, for a compiled program that is one file and starts well. */
  ghost predicate Three(w: World, s: State, c: Call) {
    var p := ProgOf(c);
    && Started(w, s, KeyOf(p)) && |s.cu.pool[KeyOf(p)]| >= 2 && w.total >= 3
    && c == NewCall(Kind.Batch, c.first, c.rest) && |c.rest| == 2 && Compiled(p.lang) && Runs(w, p) && Whole(w, p)
    && Primary(p.lang) in Program(w, p) && Program(w, p)[Primary(p.lang)] != "" && Want(w, c, 0).exitCode == 0
    && Stdin(c, 0) != Stdin(c, 1) && Stdin(c, 0) != Stdin(c, 2) && Stdin(c, 1) != Stdin(c, 2)
  }

  /** The container taken second. */
  function Next(s: State, key: string): nat
    requires key in s.cu.pool && |s.cu.pool[key]| >= 2
  {
    s.cu.pool[key][|s.cu.pool[key]| - 2]
  }

  /** The batch when the program has been built. */
  function ThreeBuilt(w: World, s: State, c: Call): View
    requires var p := ProgOf(c); KeyOf(p) in s.cu.pool && s.cu.pool[KeyOf(p)] != [] && Top(s, KeyOf(p)) in s.files
    requires var p := ProgOf(c); w.total > 0 && Runs(w, p) && Compiled(p.lang) && Primary(p.lang) in Program(w, p)
  {
    var p := ProgOf(c);
    CompiledTop(w, Building(c, w.total - 1, s.cu.pool[KeyOf(p)], s.files, map[], {}), Program(w, p),
              Program(w, p)[Primary(p.lang)])
  }

  lemma BuiltRuns(w: World, s: State, c: Call, k: nat)
    requires Three(w, s, c) && Top(s, KeyOf(ProgOf(c))) in s.files && k < 3
    ensures var v := ThreeBuilt(w, s, c);
      && |v.held| == 1 && v.held[0] == Top(s, KeyOf(ProgOf(c))) && v.held[0] in v.files
      && RunOf(w, v.c, k, v.files[v.held[0]]) == Some(Want(w, c, k))
  {
    hide Trim, PoolKeys, ArtifactKey, ResultKey, Scripted, Init;
    var p, v := ProgOf(c), ThreeBuilt(w, s, c);
    LoadedRuns(w, p, v.files[v.held[0]], Stdin(c, k));
  }

  lemma ThreeBuiltGoes(w: World, s: State, c: Call)
    requires Three(w, s, c) && Top(s, KeyOf(ProgOf(c))) in s.files
    ensures Busy(w, true, ThreeBuilt(w, s, c))
  {
    hide Trim, PoolKeys, ArtifactKey, ResultKey, Scripted, Init, Busy, AtRest, Whole, Fresh;
    var p := ProgOf(c);
    var stack := s.cu.pool[KeyOf(p)];
    StartedRests(w, s, KeyOf(p), true);
    assert BuildIn(w, p, s.files[Top(s, KeyOf(p))]) == FreshBuild(w, p);
    BuildingGoes(w, true, c, w.total, stack, s.files, map[], {});
    CompiledGoes(w, true, Building(c, w.total - 1, stack, s.files, map[], {}), Program(w, p),
                 Program(w, p)[Primary(p.lang)]);
  }

  /** And when it has read the permits. */
  function ThreeSized(w: World, s: State, c: Call): View
    requires var p := ProgOf(c); KeyOf(p) in s.cu.pool && s.cu.pool[KeyOf(p)] != [] && Top(s, KeyOf(p)) in s.files
    requires var p := ProgOf(c); w.total > 0 && Runs(w, p) && Compiled(p.lang) && Primary(p.lang) in Program(w, p)
  {
    Measured(StoreFirst(w, ThreeBuilt(w, s, c), Want(w, c, 0)), Want(w, c, 0))
  }

  lemma ThreeSizedGoes(w: World, s: State, c: Call)
    requires Three(w, s, c) && Top(s, KeyOf(ProgOf(c))) in s.files
    ensures Busy(w, true, ThreeSized(w, s, c))
  {
    hide Trim, PoolKeys, ArtifactKey, ResultKey, Scripted, Init, Busy, RunOf, Fresh, Whole;
    var v := ThreeBuilt(w, s, c);
    ThreeBuiltGoes(w, s, c);
    BuiltRuns(w, s, c, 0);
    CompiledFirstGoes(w, true, v, Want(w, c, 0));
    MeasuredGoes(w, true, StoreFirst(w, v, Want(w, c, 0)), Want(w, c, 0));
  }

  lemma ThreeMiss(w: World, c: Call, key: string, code: string, b: string, r: Visible, r1: Visible)
    requires Digests(w) && KeyOf(ProgOf(c)) in PoolKeys() && |c.rest| == 2
    requires Stdin(c, 0) != Stdin(c, 1) && Stdin(c, 0) != Stdin(c, 2) && Stdin(c, 1) != Stdin(c, 2)
    ensures var redis := StoredIn(w, map[key := ArtifactEntry(code, b)], c, 0, r) - {key};
      ResultHit(redis, Key(w, c, 1)).None? && ResultHit(StoredIn(w, redis, c, 1, r1), Key(w, c, 2)).None?
  {
    hide PoolKeys, Key;
    KeysOfCall(w, c, 0, 1);
    KeysOfCall(w, c, 0, 2);
    KeysOfCall(w, c, 1, 2);
  }

  lemma NextIsOther(w: World, s: State, key: string)
    requires Started(w, s, key) && |s.cu.pool[key]| >= 2
    ensures Next(s, key) != Top(s, key) && Next(s, key) in s.files && Top(s, key) in s.files
  {
    hide PoolKeys, WorldOk;
    StartedRests(w, s, key, false);
    assert Distinct(s.cu.pool[key]);
  }

  /** What the third request is run on, and what it shows. */
  function Leftover(w: World, s: State, c: Call): Visible
    requires var key := KeyOf(ProgOf(c)); key in s.cu.pool && |s.cu.pool[key]| >= 2 && Next(s, key) in s.files
    requires Count(c) == 3
  {
    var p := ProgOf(c);
    Show(w.exec(p.lang, p.ver, s.files[Next(s, KeyOf(p))], Stdin(c, 2)), LimitOf(w, c))
  }

  /** And when it has the second container, not loaded. */
  function ThreeReady(w: World, s: State, c: Call): View
    requires Three(w, s, c) && Top(s, KeyOf(ProgOf(c))) in s.files
  {
    GrownUnloaded(w, ThreeSized(w, s, c))
  }

  lemma ThreeReadyIs(w: World, s: State, c: Call)
    requires Three(w, s, c) && Top(s, KeyOf(ProgOf(c))) in s.files && Next(s, KeyOf(ProgOf(c))) in s.files
    ensures var v := ThreeReady(w, s, c);
      && v.c.kind == c.kind && v.c.first == c.first && v.c.rest == c.rest && v.c.results == [Want(w, c, 0)]
      && v.c.phase == Filling(0) && v.c.width == 0 && v.c.runnable && v.c.ours == [true, false] && v.stale == {}
      && v.held == [Top(s, KeyOf(ProgOf(c))), Next(s, KeyOf(ProgOf(c)))]
      && v.files == s.files[v.held[0] := ThreeBuilt(w, s, c).files[v.held[0]]]
  {
    hide Trim, PoolKeys, ArtifactKey, ResultKey, Scripted, Init, Whole, Fresh, WorldOk, StoredIn;
  }

  lemma ThreeReadyRuns(w: World, s: State, c: Call)
    requires Three(w, s, c) && Top(s, KeyOf(ProgOf(c))) in s.files && Next(s, KeyOf(ProgOf(c))) in s.files
    requires Next(s, KeyOf(ProgOf(c))) != Top(s, KeyOf(ProgOf(c)))
    ensures var v := ThreeReady(w, s, c);
      && v.held == [Top(s, KeyOf(ProgOf(c))), Next(s, KeyOf(ProgOf(c)))] && v.held[0] in v.files && v.held[1] in v.files
      && RunOf(w, v.c, 1, v.files[v.held[0]]) == Some(Want(w, c, 1))
      && RunOf(w, v.c, 2, v.files[v.held[1]]) == Some(Leftover(w, s, c))
  {
    hide Trim, PoolKeys, ThreeReady, Init, Whole, Fresh, WorldOk, StoredIn;
    ThreeReadyIs(w, s, c);
    BuiltRuns(w, s, c, 1);
  }

  lemma ThreeReadyMisses(w: World, s: State, c: Call)
    requires Three(w, s, c) && Top(s, KeyOf(ProgOf(c))) in s.files && KeyOf(ProgOf(c)) in PoolKeys()
    ensures var v := ThreeReady(w, s, c);
      && |v.c.results| == 1 && v.c.first == c.first && v.c.rest == c.rest && ResultHit(v.redis, Key(w, v.c, 1)).None?
      && ResultHit(StoredIn(w, v.redis, v.c, 1, Want(w, c, 1)), Key(w, v.c, 2)).None?
  {
    hide Trim, PoolKeys, ArtifactKey, ResultKey, Scripted, Init, Whole, Fresh;
    var p := ProgOf(c);
    ThreeMiss(w, c, ArtifactKey(w, p), p.code, Program(w, p)[Primary(p.lang)], Want(w, c, 0), Want(w, c, 1));
  }

  lemma ThreeReadyGoes(w: World, s: State, c: Call)
    requires Three(w, s, c) && Top(s, KeyOf(ProgOf(c))) in s.files && Next(s, KeyOf(ProgOf(c))) in s.files
    ensures Busy(w, true, ThreeReady(w, s, c))
  {
    hide Trim, PoolKeys, ArtifactKey, ResultKey, Scripted, Init, Busy, Whole, Fresh, WorldOk, StoredIn;
    ThreeSizedGoes(w, s, c);
    GrownUnloadedGoes(w, ThreeSized(w, s, c));
  }

  /**
   * In every world: if the artifact expires before the second container is taken, the batch runs its third
   * request on whatever that container has.
   */
  lemma Expires(w: World, s: State, c: Call)
    requires Three(w, s, c) && Next(s, KeyOf(ProgOf(c))) in s.files
    ensures Over(w, true, Kind.Batch, c.first, c.rest,
                 Ok([Want(w, c, 0), Want(w, c, 1), Leftover(w, s, c)]), {ProgOf(c)})
  {
    hide Trim, PoolKeys, Key, RunOf, Init, Busy, Over, Whole, WorldOk, StoredIn, ThreeReady, Leftover, Want;
    var p := ProgOf(c);
    StartedRests(w, s, KeyOf(p), true);
    NextIsOther(w, s, KeyOf(p));
    ThreeReadyGoes(w, s, c);
    ThreeReadyIs(w, s, c);
    ThreeReadyRuns(w, s, c);
    ThreeReadyMisses(w, s, c);
    TwoGoes(w, true, ThreeReady(w, s, c), Want(w, c, 1), Leftover(w, s, c));
    assert [Want(w, c, 0)] + [Want(w, c, 1), Leftover(w, s, c)] == [Want(w, c, 0), Want(w, c, 1), Leftover(w, s, c)];
    assert {} + {p} == {p};
  }

  /** A batch is about to load its second container; with what that has, a run there will be wrong. */
  ghost predicate WrongLater(w: World, s: State, id: nat) {
    && AtLast(w, s, id, 0, 2) && |s.cu.held[id]| == 2 && Box(s, id, 1) in s.files
    && !RightAfterLast(w, s, id, 0, 2, s.files[Box(s, id, 1)])
  }

  /** Such a run leads to a state like that, if the program does not run right on an empty container. */
  lemma LaterReached(w: World, s: State, c: Call) returns (t: State, n: nat)
    requires Three(w, s, c) && Next(s, KeyOf(ProgOf(c))) in s.files && Leftover(w, s, c) != Want(w, c, 2)
    ensures Smooth(w, t, true) && WrongLater(w, t, n)
  {
    hide Init, Key, Trim, ArtifactKey, Fresh, PoolKeys, Inv, Smooth, RightAfterLast, BuildIn, Scripted, StoredIn;
    var p := ProgOf(c);
    StartedRests(w, s, KeyOf(p), true);
    NextIsOther(w, s, KeyOf(p));
    var v := ThreeSized(w, s, c);
    ThreeSizedGoes(w, s, c);
    ThreeReadyIs(w, s, c);
    GrowGoes(w, true, v, 0);
    ExpireGoes(w, Grow(v, 0), ArtifactKey(w, p));
    var v2 := Grow(v, 0).(redis := Grow(v, 0).redis - {ArtifactKey(w, p)});
    t, n :| Smooth(w, t, true) && Appears(t, n, v2);
    SmoothInv(w, t, true);
    LastUnloaded(w, t, n, 0, 2, t.files[Box(t, n, 1)]);
  }

  // ---------------------------------------------------------------- commands behind a here-document

  /** Two requests for one compiled program, whose build has its main file. */
  ghost predicate Again(w: World, s: State, c: Call, d: Call) {
    var p := ProgOf(c);
    && Started(w, s, KeyOf(p)) && Top(s, KeyOf(p)) in s.files
    && c == NewCall(Direct, c.first, []) && d == NewCall(Direct, d.first, [])
    && d.first == c.first.(stdin := d.first.stdin) && d.first.stdin != c.first.stdin
    && Configured(p.lang) && Compiled(p.lang) && Runs(w, p) && Primary(p.lang) in Program(w, p)
    && Program(w, p)[Primary(p.lang)] != ""
  }

  function Binary(w: World, p: Prog): string
    requires Compiled(p.lang) && Runs(w, p) && Primary(p.lang) in Program(w, p)
  {
    Program(w, p)[Primary(p.lang)]
  }

  /** What the first of them leaves in the container. */
  function LeftByFirst(w: World, s: State, c: Call): map<nat, Files>
    requires exists d :: Again(w, s, c, d)
  {
    var box := Top(s, KeyOf(ProgOf(c)));
    s.files[box := Scripted(w, ProgOf(c), s.files[box]) + Program(w, ProgOf(c))]
  }

  /** And in the cache. */
  function CachedByFirst(w: World, c: Call): map<string, Entry>
    requires var p := ProgOf(c); Compiled(p.lang) && Runs(w, p) && Primary(p.lang) in Program(w, p)
  {
    var p := ProgOf(c);
    StoredIn(w, map[ArtifactKey(w, p) := ArtifactEntry(p.code, Binary(w, p))], c, 0, Want(w, c, 0))
  }

  lemma FirstRuns(w: World, s: State, c: Call, d: Call)
    requires Again(w, s, c, d)
    ensures var files := LeftByFirst(w, s, c);
      && Top(s, KeyOf(ProgOf(c))) in files
      && RunOf(w, c.(runnable := true), 0, files[Top(s, KeyOf(ProgOf(c)))]) == Some(Want(w, c, 0))
  {
    hide Trim, PoolKeys, Scripted, Init;
    var p := ProgOf(c);
    assert Loaded(w, p, LeftByFirst(w, s, c)[Top(s, KeyOf(p))]);
  }

  lemma FirstLeaves(w: World, expiry: bool, s: State, c: Call, d: Call)
    requires Again(w, s, c, d)
    ensures AtRest(w, expiry, w.total, KeyOf(ProgOf(c)), s.cu.pool[KeyOf(ProgOf(c))], LeftByFirst(w, s, c),
                   CachedByFirst(w, c), {})
  {
    hide Trim, PoolKeys, ArtifactKey, ResultKey, Scripted, Init, WorldOk, Busy, AtRest, Over, Output, Fresh;
    var p := ProgOf(c);
    var stack, none: map<string, Entry> := s.cu.pool[KeyOf(p)], map[];
    StartedRests(w, s, KeyOf(p), expiry);
    assert BuildIn(w, p, s.files[Top(s, KeyOf(p))]) == FreshBuild(w, p);
    BuildingGoes(w, expiry, c, w.total, stack, s.files, none, {});
    var v := Building(c, w.total - 1, stack, s.files, none, {});
    CompiledGoes(w, expiry, v, Program(w, p), Binary(w, p));
    FirstRuns(w, s, c, d);
    var v1 := CompiledTop(w, v, Program(w, p), Binary(w, p));
    CompiledFirstGoes(w, expiry, v1, Want(w, c, 0));
    var v2 := StoreFirst(w, v1, Want(w, c, 0));
    OneEnds(w, expiry, v2, Ok([Want(w, c, 0)]));
    assert v2.files == LeftByFirst(w, s, c) && v2.redis == CachedByFirst(w, c);
    assert stack[..|stack| - 1] + [stack[|stack| - 1]] == stack;
  }

  lemma AgainMisses(w: World, s: State, c: Call, d: Call)
    requires Again(w, s, c, d) && KeyOf(ProgOf(c)) in PoolKeys()
    ensures ArtifactHit(CachedByFirst(w, c), ArtifactKey(w, ProgOf(c))) == Some(Binary(w, ProgOf(c)))
    ensures ResultHit(CachedByFirst(w, c), Key(w, d, 0)).None?
  {
    hide Trim, PoolKeys, ArtifactKey, ResultKey, Init, Fresh;
    var p, limit := ProgOf(c), LimitOf(w, c);
    PoolKeyUnique(p.lang, p.ver);
    KeysApart(w, p, limit, c.first.stdin, p);
    if Key(w, d, 0) == Key(w, c, 0) {
      ResultKeyUnique(w, Origin(p, limit, c.first.stdin), p, limit, d.first.stdin);
    }
  }

  /** What the second request finds in the container when the artifact has been unpacked. */
  function Reloaded(w: World, s: State, c: Call): Files
    requires exists d :: Again(w, s, c, d)
  {
    Unpacked(w, ProgOf(c), Binary(w, ProgOf(c)), LeftByFirst(w, s, c)[Top(s, KeyOf(ProgOf(c)))])
  }

  /**
   * In every world: `execute` of a compiled program, and the same with another stdin. The second one runs
   * what the unpacked artifact, and the commands that the script has behind its here-document, left.
   */
  lemma RunsReloaded(w: World, s: State, c: Call, d: Call)
    requires Again(w, s, c, d)
    ensures Over(w, false, Direct, d.first, [],
                 Ok([Show(w.exec(ProgOf(c).lang, ProgOf(c).ver, Reloaded(w, s, c), d.first.stdin), LimitOf(w, c))]), {})
  {
    hide Trim, PoolKeys, ArtifactKey, ResultKey, Unpacked, Init, WorldOk, Busy, AtRest, Over, Fresh, Show;
    hide CachedByFirst;
    var p := ProgOf(c);
    var stack, r := s.cu.pool[KeyOf(p)], Show(w.exec(p.lang, p.ver, Reloaded(w, s, c), d.first.stdin), LimitOf(w, c));
    StartedRests(w, s, KeyOf(p), false);
    FirstLeaves(w, false, s, c, d);
    AgainMisses(w, s, c, d);
    ReusedGoes(w, false, d, Binary(w, p), w.total, stack, LeftByFirst(w, s, c), CachedByFirst(w, c), {});
    var v := Reused(w, d, Binary(w, p), w.total - 1, stack, LeftByFirst(w, s, c), CachedByFirst(w, c), {});
    CompiledFirstGoes(w, false, v, r);
    OneEnds(w, false, StoreFirst(w, v, r), Ok([r]));
  }

  /**
   * In every world: if the artifact has expired in between, the second one builds where the first has been.
   * What the commands behind its here-document do there may make the compiler fail.
   */
  lemma RebuildsElse(w: World, s: State, c: Call, d: Call, e: string)
    requires Again(w, s, c, d) && e != ""
    requires BuildIn(w, ProgOf(c), LeftByFirst(w, s, c)[Top(s, KeyOf(ProgOf(c)))]) == Rejected(e)
    ensures Over(w, true, Direct, d.first, [], Ok([CompileError(e)]), {})
  {
    hide Trim, PoolKeys, ArtifactKey, ResultKey, Init, WorldOk, Busy, AtRest, Over, LeftByFirst, CachedByFirst, BuildIn;
    var p := ProgOf(c);
    var stack, files, redis := s.cu.pool[KeyOf(p)], LeftByFirst(w, s, c), CachedByFirst(w, c) - {ArtifactKey(w, p)};
    StartedRests(w, s, KeyOf(p), true);
    FirstLeaves(w, true, s, c, d);
    FirstRuns(w, s, c, d);
    ExpireRest(w, w.total, KeyOf(p), stack, files, CachedByFirst(w, c), {}, ArtifactKey(w, p));
    BuildingGoes(w, true, d, w.total, stack, files, redis, {});
    var v := Building(d, w.total - 1, stack, files, redis, {});
    RejectAloneGoes(w, true, v, e);
    OneEnds(w, true, RejectAlone(w, v, e), Ok([CompileError(e)]));
  }

  // ---------------------------------------------------------------- in small worlds

  function Script(code: string): Prog {
    Prog("python", "3.9", code)
  }

  function Source(code: string): Prog {
    Prog("c", "11", code)
  }

  lemma OneLetter(x: char)
    requires !IsSpace(x)
    ensures Tidy(Script([x])) && Tidy(Source([x])) && Tidy(Prog("cpp", "11", [x]))
    ensures KeyOf(Script([x])) == "python:3.9" && KeyOf(Source([x])) == "c:11"
    ensures KeyOf(Prog("cpp", "11", [x])) == "cpp:11"
  {
    assert TrimStart([x]) == [x] && TrimEnd([x]) == [x];
  }

  lemma SmallStarted(total: nat, key: string, stack: seq<nat>, second: nat, defaultTimeout: nat, time: nat)
    requires key in PoolKeys() && Distinct(stack) && stack != [] && total > 0
    ensures var w, s := Small(total, key, stack, second, defaultTimeout, time), Rest(total, key, stack);
      Started(w, s, key) && s.cu.pool[key] == stack && s.files == map c | c in Elems(stack) :: map[]
  {
    hide PoolKeys, Init, WorldOk;
    WorldIsOk(total, key, stack, second, defaultTimeout, time);
    RestStarts(total, key, stack, second, defaultTimeout, time);
  }

  /** A program prints itself. */
  lemma Prints(total: nat, stack: seq<nat>, code: string, stdin: Option<string>)
    requires OneDocument(code)
    ensures Fresh(Small(total, "python:3.9", stack, 1, 1, 0), Script(code), 1, stdin) == Visible(code, None, 0)
    ensures Fresh(Small(total, "c:11", stack, 1, 1, 0), Source(code), 1, stdin) == Visible(code, None, 0)
  {
    hide OneDocument, FreshBuild;
    CopierReads(Small(total, "c:11", stack, 1, 1, 0), Source(code), map[]);
  }

  lemma ExpectedTwice(w: World, p: Prog, stdin: string, c: Call)
    requires Tidy(p) && c.kind.Batch? && c.first == Req(p, None, None) && c.rest == [Req(p, Some(stdin), None)]
    requires Fresh(w, p, w.defaultTimeout, None) == Visible(p.code, None, 0)
    requires Fresh(w, p, w.defaultTimeout, Some(stdin)) == Visible(p.code, None, 0)
    requires Runs(w, p)
    ensures Expected(w, c) == [Visible(p.code, None, 0), Visible(p.code, None, 0)]
  {
    hide Fresh, Trim;
    assert Stdins(c) == [None, Some(stdin)];
  }

  /** execute "a"; execute "b"; a batch of "a" twice, on one container: the batch returns "a" and "b". */
  lemma StaleBatch() returns (w: World, trace: seq<State>, events: seq<Event>, id: nat)
    ensures WorldOk(w) && Run(w, trace, events) && |trace| > 0
    ensures forall i :: 0 <= i < |events| ==> Fine(events[i], false)
    ensures var s, p := trace[|trace| - 1], Script("a");
      && Ended(s, id, Kind.Batch, Req(p, None, None), [Req(p, Some(""), None)],
               Ok([Visible("a", None, 0), Visible("b", None, 0)]))
      && ProgOf(s.calls[id]) == p && Expected(w, s.calls[id]) == [Visible("a", None, 0), Visible("a", None, 0)]
  {
    hide WorldOk, Run, Init, Over, Fresh, Trim, PoolKeys;
    w := Small(2, "python:3.9", [0], 1, 1, 0);
    var a, b := Script("a"), Script("b");
    KeysPooled();
    SmallStarted(2, "python:3.9", [0], 1, 1, 0);
    OneLetter('a');
    OneLetter('b');
    Prints(2, [0], "a", None);
    Prints(2, [0], "a", Some(""));
    Prints(2, [0], "b", None);
    Prints(2, [0], "b", Some(""));
    Usurped(w, Rest(2, "python:3.9", [0]), a, b, "");
    trace, events, id := OverRuns(w, false, Kind.Batch, Req(a, None, None), [Req(a, Some(""), None)],
                                  Ok([Visible("a", None, 0), Visible("b", None, 0)]), {a});
    ExpectedTwice(w, a, "", trace[|trace| - 1].calls[id]);
  }

  /** The request of three scripts, without and with stdin. */
  function Thrice(p: Prog): Call {
    NewCall(Kind.Batch, Req(p, None, None), [Req(p, Some("x"), None), Req(p, Some("y"), None)])
  }

  lemma ThriceIsOf(w: World, p: Prog)
    requires Tidy(p) && (Interpreted(p.lang) || Compiled(p.lang))
    ensures var c := Thrice(p);
      && ProgOf(c) == p && LimitOf(w, c) == w.defaultTimeout && Accepted(c) && Count(c) == 3
      && Stdin(c, 0) == None && Stdin(c, 1) == Some("x") && Stdin(c, 2) == Some("y")
  {
  }

  lemma ExpectedThrice(w: World, p: Prog, c: Call, v: Visible)
    requires Tidy(p) && SameCall(Thrice(p), c) && Runs(w, p) && v.exitCode == 0
    requires Fresh(w, p, w.defaultTimeout, None) == v && Fresh(w, p, w.defaultTimeout, Some("x")) == v
    requires Fresh(w, p, w.defaultTimeout, Some("y")) == v
    ensures Expected(w, c) == [v, v, v]
  {
    hide Fresh, Trim;
    assert Stdins(c) == [None, Some("x"), Some("y")];
  }

  /** A batch of three with the only permit ends in a fault. */
  lemma FaultingBatch() returns (w: World, trace: seq<State>, events: seq<Event>, id: nat)
    ensures WorldOk(w) && Run(w, trace, events) && |trace| > 0
    ensures forall i :: 0 <= i < |events| ==> Fine(events[i], false)
    ensures var s, c, v := trace[|trace| - 1], Thrice(Script("a")), Visible("a", None, 0);
      && Ended(s, id, Kind.Batch, c.first, c.rest, Fault) && Expected(w, s.calls[id]) == [v, v, v]
  {
    hide WorldOk, Run, Init, Over, Fresh, Trim, PoolKeys;
    w := Small(1, "python:3.9", [0], 1, 1, 0);
    var p := Script("a");
    var c := Thrice(p);
    KeysPooled();
    SmallStarted(1, "python:3.9", [0], 1, 1, 0);
    OneLetter('a');
    ThriceIsOf(w, p);
    Prints(1, [0], "a", None);
    Prints(1, [0], "a", Some("x"));
    Prints(1, [0], "a", Some("y"));
    Starves(w, Rest(1, "python:3.9", [0]), c);
    trace, events, id := OverRuns(w, false, Kind.Batch, c.first, c.rest, Fault, {});
    ExpectedThrice(w, p, trace[|trace| - 1].calls[id], Visible("a", None, 0));
  }

  lemma SourceIsThree()
    ensures Three(Small(3, "c:11", [0, 1], 1, 1, 0), Rest(3, "c:11", [0, 1]), Thrice(Source("a")))
  {
    hide WorldOk, Init, Trim, PoolKeys;
    var w := Small(3, "c:11", [0, 1], 1, 1, 0);
    KeysPooled();
    SmallStarted(3, "c:11", [0, 1], 1, 1, 0);
    OneLetter('a');
    ThriceIsOf(w, Source("a"));
    Prints(3, [0, 1], "a", None);
  }

  /** A batch of three for a compiled program on two containers, its artifact expired: the third result is empty. */
  lemma ExpiredBatch() returns (w: World, trace: seq<State>, events: seq<Event>, id: nat)
    ensures WorldOk(w) && Run(w, trace, events) && |trace| > 0
    ensures forall i :: 0 <= i < |events| ==> Fine(events[i], true)
    ensures var s, c, v := trace[|trace| - 1], Thrice(Source("a")), Visible("a", None, 0);
      && Ended(s, id, Kind.Batch, c.first, c.rest, Ok([v, v, Visible("", None, 0)]))
      && Expected(w, s.calls[id]) == [v, v, v]
  {
    hide WorldOk, Run, Init, Over, Fresh, Trim, PoolKeys, Three;
    w := Small(3, "c:11", [0, 1], 1, 1, 0);
    var p, v := Source("a"), Visible("a", None, 0);
    var c, s := Thrice(p), Rest(3, "c:11", [0, 1]);
    SourceIsThree();
    KeysPooled();
    SmallStarted(3, "c:11", [0, 1], 1, 1, 0);
    OneLetter('a');
    ThriceIsOf(w, p);
    Prints(3, [0, 1], "a", None);
    Prints(3, [0, 1], "a", Some("x"));
    Prints(3, [0, 1], "a", Some("y"));
    Expires(w, s, c);
    assert Leftover(w, s, c) == Visible("", None, 0);
    trace, events, id := OverRuns(w, true, Kind.Batch, c.first, c.rest, Ok([v, v, Visible("", None, 0)]), {p});
    ExpectedThrice(w, p, trace[|trace| - 1].calls[id], v);
  }

  const CUT := "x\nEOF\ny"

  lemma CutIsCut()
    ensures !OneDocument(CUT)
  {
    hide Shell.Body;
    assert Shell.FirstLine("EOF\ny") == "EOF";
    assert Shell.FirstLine(CUT) == "x" && CUT[2..] == "EOF\ny";
    assert Shell.Lines(CUT)[1] == Shell.Lines("EOF\ny")[0] == "EOF";
  }

  /** What is written of it, and that something is executed. */
  lemma CutWritten()
    ensures Written(CUT) == "x\n" && Tail(CUT) != "" && Trim(CUT) == CUT
  {
    hide Shell.Lines, Trim, OneDocument;
    var document := Shell.Document(CUT, "EOF");
    assert Shell.FirstLine(document) == "x" && document[2..] == "EOF\ny\nEOF";
    assert Shell.FirstLine("EOF\ny\nEOF") == "EOF";
    CutIsCut();
    CutExecuted(CUT);
    TrimmedStays(CUT);
  }

  function Cut(lang: string, ver: string): Prog {
    Prog(lang, ver, CUT)
  }

  /** The request of a program, alone, with this stdin. */
  function Sole(p: Prog, stdin: Option<string>): Call {
    NewCall(Direct, Req(p, stdin, None), [])
  }

  /** What its script leaves in a container, and what is built there. */
  lemma CutScripted(w: World, lang: string, ver: string, files: Files)
    requires w.shell == Cleared && w.compile == Copier && (lang == "java" || lang == "c")
    ensures var p := Cut(lang, ver);
      && Scripted(w, p, files) == Cleared(Tail(CUT), files[SourceFile(lang) := "x\n"])
      && (lang == "c" && "main" in files ==> BuildIn(w, p, files) == Rejected("no source"))
      && ("main" !in files ==> BuildIn(w, p, files) == Built(map[Primary(lang) := "x"]))
  {
    hide Written, Tail, OneDocument;
    CutWritten();
    assert ("x\n")[..1] == "x";
  }

  lemma CutIsTidy()
    ensures Tidy(Cut("java", "java-slim-executor")) && Tidy(Cut("c", "11"))
    ensures KeyOf(Cut("java", "java-slim-executor")) == "java:java-slim-executor" && KeyOf(Cut("c", "11")) == "c:11"
  {
    hide Trim, Written, Tail, OneDocument;
    CutWritten();
    TrimmedStays("java");
    TrimmedStays("java-slim-executor");
    TrimmedStays("c");
    TrimmedStays("11");
  }

  lemma CutTwice(lang: string, ver: string)
    requires (lang, ver) in [("java", "java-slim-executor"), ("c", "11")]
    ensures var key := PoolKey(lang, ver);
      var w, s := Small(1, key, [0], 1, 1, 0), Rest(1, key, [0]);
      && Again(w, s, Sole(Cut(lang, ver), None), Sole(Cut(lang, ver), Some("x")))
      && FreshBuild(w, Cut(lang, ver)) == Built(map[Primary(lang) := "x"])
  {
    hide WorldOk, Init, Trim, PoolKeys, Scripted, BuildIn, OneDocument, Written, Tail, Fresh;
    KeysPooled();
    CutIsTidy();
    CutScripted(Small(1, PoolKey(lang, ver), [0], 1, 1, 0), lang, ver, map[]);
    SmallStarted(1, PoolKey(lang, ver), [0], 1, 1, 0);
  }

  lemma CutUnloads(s: State, c: Call)
    requires var w := Small(1, "java:java-slim-executor", [0], 1, 1, 0);
      && Again(w, s, c, Sole(Cut("java", "java-slim-executor"), Some("x")))
      && ProgOf(c) == Cut("java", "java-slim-executor")
      && s.files[Top(s, "java:java-slim-executor")] == map[]
      && FreshBuild(w, ProgOf(c)) == Built(map["Main.class" := "x"])
    ensures "Main.class" !in Reloaded(Small(1, "java:java-slim-executor", [0], 1, 1, 0), s, c)
  {
    hide WorldOk, Init, Trim, PoolKeys, Scripted, BuildIn, FreshBuild;
    hide Written, Tail, OneDocument, Fresh;
    var w, p := Small(1, "java:java-slim-executor", [0], 1, 1, 0), ProgOf(c);
    CutIsTidy();
    CutScripted(w, p.lang, p.ver, map[]);
    var left := LeftByFirst(w, s, c)[Top(s, KeyOf(p))];
    assert left == Scripted(w, p, map[]) + map["Main.class" := "x"];
    assert "main" !in left;
    CutScripted(w, p.lang, p.ver, left["Main.class" := "x"]);
  }

  /** Java code with a line `EOF`, executed twice: the second result, on an artifact, is another one. */
  lemma CutExecutedTwice() returns (w: World, trace: seq<State>, events: seq<Event>, id: nat)
    ensures WorldOk(w) && Run(w, trace, events) && |trace| > 0
    ensures forall i :: 0 <= i < |events| ==> Fine(events[i], false)
    ensures var s, p := trace[|trace| - 1], Cut("java", "java-slim-executor");
      && Ended(s, id, Direct, Req(p, Some("x"), None), [], Ok([Visible("", None, 0)])) && s.stale == {}
      && ProgOf(s.calls[id]) == p && Expected(w, s.calls[id]) == [Visible("x", None, 0)]
  {
    hide WorldOk, Run, Init, Over, Trim, PoolKeys, Again, FreshBuild, BuildIn, Scripted;
    var key, p := "java:java-slim-executor", Cut("java", "java-slim-executor");
    w := Small(1, key, [0], 1, 1, 0);
    var s, c, d := Rest(1, key, [0]), Sole(p, None), Sole(p, Some("x"));
    KeysPooled();
    CutIsTidy();
    SmallStarted(1, key, [0], 1, 1, 0);
    CutTwice("java", "java-slim-executor");
    RunsReloaded(w, s, c, d);
    CutUnloads(s, c);
    trace, events, id := OverRuns(w, false, Direct, d.first, [], Ok([Visible("", None, 0)]), {});
  }

  /** C code with a line `EOF`, executed again when its artifact has expired: now it does not build. */
  lemma CutBuiltTwice() returns (w: World, trace: seq<State>, events: seq<Event>, id: nat)
    ensures WorldOk(w) && Run(w, trace, events) && |trace| > 0
    ensures forall i :: 0 <= i < |events| ==> Fine(events[i], true)
    ensures var s, p := trace[|trace| - 1], Cut("c", "11");
      && Ended(s, id, Direct, Req(p, Some("x"), None), [], Ok([CompileError("no source")])) && s.stale == {}
      && ProgOf(s.calls[id]) == p && Expected(w, s.calls[id]) == [Visible("x", None, 0)]
  {
    hide WorldOk, Run, Init, Over, Trim, PoolKeys, FreshBuild, BuildIn, Scripted;
    var p := Cut("c", "11");
    w := Small(1, "c:11", [0], 1, 1, 0);
    var s, c, d := Rest(1, "c:11", [0]), Sole(p, None), Sole(p, Some("x"));
    KeysPooled();
    CutIsTidy();
    SmallStarted(1, "c:11", [0], 1, 1, 0);
    CutTwice("c", "11");
    var left := LeftByFirst(w, s, c)[0];
    assert "main" in left;
    CutScripted(w, "c", "11", left);
    RebuildsElse(w, s, c, d, "no source");
    trace, events, id := OverRuns(w, true, Direct, d.first, [], Ok([CompileError("no source")]), {});
  }

  /** With 1.0 above DEFAULT_TIMEOUT and a program in between, an early lookup gives a wrong result. */
  lemma EarlyCanFail()
    ensures WorldOk(Small(1, "python:3.9", [0], 2, 1, 2)) && !EarlyAlwaysRight(Small(1, "python:3.9", [0], 2, 1, 2))
  {
    hide WorldOk, EarlyAlwaysRight, Trim, PoolKeys;
    KeysPooled();
    SmallStarted(1, "python:3.9", [0], 2, 1, 2);
    OneLetter('a');
    EarlyLookupExactly(Small(1, "python:3.9", [0], 2, 1, 2), Rest(1, "python:3.9", [0]), Script("a"), None);
  }

  /** A batch that does not build, without stdin, loses its container and reports nothing. */
  lemma UnbuiltBatch()
    ensures var w, c := Small(1, "cpp:11", [0], 1, 1, 0), Thrice(Prog("cpp", "11", "a"));
      && WorldOk(w) && OverWithout(w, false, Kind.Batch, c.first, c.rest, 0)
      && Expected(w, c)[0] == CompileError("no compiler")
  {
    hide WorldOk, OverWithout, Trim, PoolKeys, OneDocument, Init;
    var w, c := Small(1, "cpp:11", [0], 1, 1, 0), Thrice(Prog("cpp", "11", "a"));
    KeysPooled();
    SmallStarted(1, "cpp:11", [0], 1, 1, 0);
    OneLetter('a');
    ThriceIsOf(w, Prog("cpp", "11", "a"));
    BuildErrorUnreported(w, Rest(1, "cpp:11", [0]), c);
  }
}
