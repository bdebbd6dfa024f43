/**
 * `execute` and `execute_batch` as the loops they are, over the pool, the container engine and the
 * cache. `alone` says that no other call is in flight; if one is, it acts between any two operations.
 */
module Executor {
  import opened Options
  import opened Text
  import opened Platform
  import opened Keys
  import opened Store
  import opened Services
  import opened Compilers
  import opened Custody
  import opened ContainerPool
  import opened Engine
  import opened Meaning
  import opened Invariants
  import opened Contents
  import opened Shares
  import opened Outcomes

  import Progress

  class CodeExecutor {
    var permits: nat
    ghost const total: nat
    ghost var away: nat    // permits that other calls have
    ghost var inside: nat  // permits that this call has
    const pool: ContainerPool
    const docker: Docker
    const redis: RedisClient

    constructor (total: nat, pool: ContainerPool, docker: Docker, redis: RedisClient)
      ensures permits == this.total == total && away == inside == 0
      ensures this.pool == pool && this.docker == docker && this.redis == redis
    {
      permits, this.total, away, inside := total, total, 0, 0;
      this.pool, this.docker, this.redis := pool, docker, redis;
    }

    /** The call may hold `mine`, and everything else is in order: every permit is free or some call's. */
    ghost predicate Fit(w: World, bad: set<Prog>, home: map<nat, string>, key: string, mine: seq<nat>)
      reads this, pool, docker, redis
    {
      InOrder(w, bad, home, key, mine, redis.store, docker.files, pool.pool) && permits + away + inside == total
    }

    /** The call has no permit yet, and there is one to be had; at once if no other call is in flight. */
    ghost predicate Entering(alone: bool)
      reads this
    {
      total > 0 && inside == 0 && (alone ==> permits > 0)
    }

    /** The artifact of the program is in the cache. */
    predicate HasArtifact(w: World, p: Prog)
      reads redis
    {
      ArtifactHit(redis.store, ArtifactKey(w, p)).Some?
    }

    /**
     * What other calls may do between two operations: anything but touch the containers that this one
     * holds, or add to what it has met. They may run programs on containers left unloaded; `bad` has every program
     * that any of them spoils so before this call returns, besides those spoilt already. That the calls do keep
     * to this is `Interference.OthersMove`.
     */
    method Others(w: World, ghost alone: bool, ghost bad: set<Prog>, ghost home: map<nat, string>, ghost key: string,
            ghost mine: seq<nat>)
      requires WorldOk(w) && Fit(w, bad, home, key, mine)
      modifies `permits, `away, pool, docker`files, redis`store
      ensures Fit(w, bad, home, key, mine)
      ensures Untouched(mine, old(docker.files), docker.files)
      ensures alone ==> unchanged(`permits) && unchanged(pool) && unchanged(docker) && unchanged(redis)
    {
    }

    /** The container that the call has taken first is handed back. */
    method HandBack(p: Prog, box: nat, ghost home: map<nat, string>)
      requires Stocked(pool.pool, [box], KeyOf(p), home)
      modifies pool
      ensures Stocked(pool.pool, [], KeyOf(p), home) && Stocked(pool.pool, [], "", home)
      ensures pool.pool == Give(old(pool.pool), KeyOf(p), box)
    {
      StockedGive(pool.pool, [box], KeyOf(p), home);
      assert [box][1..] == [];
      pool.ReturnContainer(p.lang, p.ver, box);
      StockedDrop(pool.pool, [], KeyOf(p), "", home);
    }

    // -------------------------------------------------------------- one request

    /** The result of request k, if it is in the cache. */
    method Cached(w: World, c: Call, k: nat, ghost bad: set<Prog>) returns (r: Option<Visible>)
      requires WorldOk(w) && StoreGood(w, bad, redis.store) && k < Count(c)
      modifies redis`past
      ensures redis.past.failures >= old(redis.past).failures && redis.past.missed == old(redis.past).missed
      ensures redis.past.found == old(redis.past).found + (if k == 0 && r.Some? then 1 else 0)
      ensures r.Some? || redis.past.failures == old(redis.past).failures ==> r == ResultHit(redis.store, Key(w, c, k))
      ensures r.Some? ==> r.value.stderr.None? && (Clean(w, bad, ProgOf(c)) ==> r.value == Want(w, c, k))
    {
      var reply := redis.GetFromCache(Key(w, c, k), k == 0);
      if reply.Answer? && reply.value.Some? {
        HitIsWanted(w, bad, redis.store, ProgOf(c), LimitOf(w, c), Stdin(c, k));
        r := reply.value;
      } else {
        r := None;
      }
    }

    /** Request k is run on a container, `raw` if that may not have the program; then the program is spoilt. */
    method RunOnce(w: World, c: Call, k: nat, box: nat, prep: Prepared, ghost raw: bool, ghost bad: set<Prog>)
      returns (r: Option<Visible>, created: bool, ghost spoils: bool)
      requires WorldOk(w) && StoreGood(w, bad, redis.store) && k < Count(c) && box in docker.files
      requires KnowsBuild(w, ProgOf(c), prep.runnable, prep.stderr)
      requires prep.runnable && Whole(w, ProgOf(c)) && !raw ==> Loaded(w, ProgOf(c), docker.files[box])
      modifies docker`past
      ensures docker.past.ran == old(docker.past).ran + [Tried(k, box)] && docker.past.late == old(docker.past).late
      ensures SinceLoaded(old(docker.past), docker.past)
      ensures docker.past.hard ==
        old(docker.past).hard + (if docker.past.failures > old(docker.past).failures && !created then 1 else 0)
      ensures StoreGood(w, Worse(bad, c, spoils), redis.store) && (spoils <==> raw && prep.runnable && r.Some?)
      ensures if r.Some? then docker.past.failures == old(docker.past).failures &&
                              RunShows(w, c, k, prep.runnable, docker.files[box], r.value)
              else if created then docker.past.failures > old(docker.past).failures
              else docker.past.failures > old(docker.past).failures || Refused(c, k, prep)
      ensures r.Some? ==> Shows(w, OriginOf(w, c, k), r.value) && !Refused(c, k, prep)
      ensures r.Some? && Clean(w, Worse(bad, c, spoils), ProgOf(c)) ==>
        if prep.stderr == "" then r.value == Want(w, c, k) else r.value.stderr.Some?
    {
      r, created := docker.Exec(w, ProgOf(c), prep.runnable, LimitOf(w, c), Stdin(c, k), box, k);
      spoils := raw && prep.runnable && r.Some?;
      StoreGrows(w, bad, Worse(bad, c, spoils), redis.store);
      if r.Some? && Clean(w, Worse(bad, c, spoils), ProgOf(c)) {
        OutputIsWanted(w, ProgOf(c), prep.runnable, prep.stderr, LimitOf(w, c), Stdin(c, k), docker.files[box]);
      }
    }

    /** The result of request k is stored if it has no stderr. */
    method Keep(w: World, c: Call, k: nat, v: Visible, ghost bad: set<Prog>)
      requires WorldOk(w) && StoreGood(w, bad, redis.store) && k < Count(c) && OfPair(ProgOf(c))
      requires Shows(w, OriginOf(w, c, k), v) && (Clean(w, bad, ProgOf(c)) && v.stderr.None? ==> v == Want(w, c, k))
      modifies redis
      ensures StoreGood(w, bad, redis.store) && OnlyFailed(old(redis.past), redis.past)
      ensures redis.store == (if v.stderr.None? && redis.past.failures == old(redis.past).failures
                              then old(redis.store)[Key(w, c, k) := ResultEntry(v)] else old(redis.store))
      ensures old(HasArtifact(w, ProgOf(c))) ==> HasArtifact(w, ProgOf(c))
    {
      ArtifactStays(w, c, k, v, redis.store);
      if v.stderr.None? {
        ResultGood(w, bad, redis.store, ProgOf(c), LimitOf(w, c), Stdin(c, k), v);
        var stored := redis.SetInCache(Key(w, c, k), v);
      }
    }

    /** Compiled programs are unpacked or compiled; for others there is nothing to do yet. */
    method Prepare(w: World, c: Call, box: nat, ghost bad: set<Prog>) returns (r: Option<Prepared>)
      requires WorldOk(w) && StoreGood(w, bad, redis.store) && box in docker.files && OfPair(ProgOf(c))
      modifies docker`files, docker`past, redis
      ensures OnlyAt(old(docker.files), docker.files, box) && StoreGood(w, bad, redis.store)
      ensures r.Some? ==> KnowsBuild(w, ProgOf(c), r.value.runnable, r.value.stderr)
      ensures OnlyPassedOn(old(docker.past), docker.past) && OnlyFailed(old(redis.past), redis.past)
      ensures r.Some? && r.value.runnable && Compiled(ProgOf(c).lang) && Whole(w, ProgOf(c)) ==>
        Loaded(w, ProgOf(c), docker.files[box])
      ensures if r.None? then docker.past.failures > old(docker.past).failures || UnfitBuild(w, c)
              else docker.past.failures == old(docker.past).failures
      ensures r.Some? && r.value.runnable && Compiled(ProgOf(c).lang) ==>
        redis.past.failures == old(redis.past).failures ==> HasArtifact(w, ProgOf(c))
      ensures !Compiled(ProgOf(c).lang) ==> docker.files == old(docker.files) && redis.store == old(redis.store)
      ensures SameOff(old(redis.store), redis.store, ArtifactKey(w, ProgOf(c)))
      ensures !Compiled(ProgOf(c).lang) ==> docker.past.built == old(docker.past).built
      ensures old(HasArtifact(w, ProgOf(c))) && redis.past.failures == old(redis.past).failures ==>
        docker.past.built == old(docker.past).built
    {
      if Compiled(ProgOf(c).lang) {
        r := HandleArtifact(w, ProgOf(c), box, docker, redis, bad);
      } else {
        r := Some(Prepared(true, ""));
      }
    }

    /** The first request is looked up. */
    method Seek(w: World, c: Call, box: nat, ghost alone: bool, ghost bad: set<Prog>, ghost home: map<nat, string>)
      returns (hit: Option<Visible>)
      requires WorldOk(w) && Fit(w, bad, home, KeyOf(ProgOf(c)), [box]) && box in docker.files
      modifies `permits, `away, pool, docker`files, redis
      ensures Fit(w, bad, home, KeyOf(ProgOf(c)), [box])
      ensures box in docker.files && docker.files[box] == old(docker.files)[box]
      ensures redis.past.failures >= old(redis.past).failures && redis.past.missed == old(redis.past).missed
      ensures redis.past.found == old(redis.past).found + (if hit.Some? then 1 else 0)
      ensures hit.Some? ==> hit.value.stderr.None? && (Clean(w, bad, ProgOf(c)) ==> hit.value == Want(w, c, 0))
      ensures alone ==> unchanged(`permits) && unchanged(pool) && unchanged(docker) && redis.store == old(redis.store)
      ensures alone && hit.Some? ==> hit == ResultHit(redis.store, Key(w, c, 0))
      ensures alone && redis.past.failures == old(redis.past).failures ==> hit == ResultHit(redis.store, Key(w, c, 0))
    {
      hide PoolKeys, Shelf, Trim;
      assert box in [box];
      Others(w, alone, bad, home, KeyOf(ProgOf(c)), [box]);
      hit := Cached(w, c, 0, bad);
    }

    /** An interpreted program is written into its container. */
    method WriteFirst(w: World, c: Call, box: nat, ghost alone: bool, ghost bad: set<Prog>,
            ghost home: map<nat, string>)
      returns (r: Started)
      requires WorldOk(w) && Fit(w, bad, home, KeyOf(ProgOf(c)), [box]) && box in docker.files
      modifies `permits, `away, pool, docker`files, docker`past, redis`store
      ensures Fit(w, bad, home, KeyOf(ProgOf(c)), [box]) && box in docker.files
      ensures alone ==> unchanged(`permits) && unchanged(pool) && unchanged(redis)
      ensures Compiled(ProgOf(c).lang) ==> r.Done? && docker.files[box] == old(docker.files)[box]
      ensures !Compiled(ProgOf(c).lang) && r.Done? ==> Loaded(w, ProgOf(c), docker.files[box])
      ensures docker.past.failures == old(docker.past).failures + (if r.Done? then 0 else 1)
      ensures docker.past.hard == old(docker.past).hard + (if r.NotCreated? then 1 else 0)
      ensures docker.past.ran == old(docker.past).ran && docker.past.late >= old(docker.past).late
      ensures docker.past.built == old(docker.past).built
      ensures r.Done? ==> docker.past == old(docker.past)
    {
      hide PoolKeys, Shelf, Trim;
      assert box in [box];
      Others(w, alone, bad, home, KeyOf(ProgOf(c)), [box]);
      r := Started.Done;
      if !Compiled(ProgOf(c).lang) {
        r := docker.Echo(box, SourceFile(ProgOf(c).lang), ProgOf(c).code);
      }
    }

    /** The first request is run on the loaded container. */
    method RunFirst(w: World, c: Call, box: nat, prep: Prepared, ghost alone: bool, ghost bad: set<Prog>,
            ghost home: map<nat, string>)
      returns (r: Option<Visible>, created: bool)
      requires WorldOk(w) && Fit(w, bad, home, KeyOf(ProgOf(c)), [box]) && box in docker.files
      requires KnowsBuild(w, ProgOf(c), prep.runnable, prep.stderr)
      requires prep.runnable && Whole(w, ProgOf(c)) ==> Loaded(w, ProgOf(c), docker.files[box])
      modifies `permits, `away, pool, docker`files, docker`past, redis`store
      ensures Fit(w, bad, home, KeyOf(ProgOf(c)), [box])
      ensures box in docker.files && docker.files[box] == old(docker.files)[box]
      ensures alone ==> unchanged(`permits) && unchanged(pool) && unchanged(redis)
      ensures docker.past.ran == old(docker.past).ran + [Tried(0, box)] && docker.past.late == old(docker.past).late
      ensures SinceLoaded(old(docker.past), docker.past)
      ensures r.Some? ==> Shows(w, OriginOf(w, c, 0), r.value) && !Refused(c, 0, prep)
      ensures r.Some? ==> docker.past.failures == old(docker.past).failures
      ensures r.Some? && Clean(w, bad, ProgOf(c)) ==>
        if prep.stderr == "" then r.value == Want(w, c, 0) else r.value.stderr.Some?
      ensures r.None? ==> docker.past.failures > old(docker.past).failures || (!created && Refused(c, 0, prep))
      ensures docker.past.hard ==
        old(docker.past).hard + (if docker.past.failures > old(docker.past).failures && !created then 1 else 0)
    {
      hide PoolKeys, Shelf, Trim;
      assert box in [box];
      Others(w, alone, bad, home, KeyOf(ProgOf(c)), [box]);
      ghost var spoils;
      r, created, spoils := RunOnce(w, c, 0, box, prep, false, bad);
    }

    /** Its result is stored. */
    method KeepFirst(w: World, c: Call, box: nat, v: Visible, ghost alone: bool, ghost bad: set<Prog>,
            ghost home: map<nat, string>)
      requires WorldOk(w) && Fit(w, bad, home, KeyOf(ProgOf(c)), [box]) && OfPair(ProgOf(c)) && box in docker.files
      requires Shows(w, OriginOf(w, c, 0), v) && (Clean(w, bad, ProgOf(c)) && v.stderr.None? ==> v == Want(w, c, 0))
      modifies `permits, `away, pool, docker`files, redis
      ensures Fit(w, bad, home, KeyOf(ProgOf(c)), [box]) && OnlyFailed(old(redis.past), redis.past)
      ensures box in docker.files && docker.files[box] == old(docker.files)[box]
      ensures alone ==> unchanged(`permits) && unchanged(pool) && unchanged(docker)
      ensures alone ==>
        redis.store == (if v.stderr.None? && redis.past.failures == old(redis.past).failures
                        then old(redis.store)[Key(w, c, 0) := ResultEntry(v)] else old(redis.store))
      ensures alone && old(HasArtifact(w, ProgOf(c))) ==> HasArtifact(w, ProgOf(c))
    {
      hide PoolKeys, Shelf, Trim;
      assert box in [box];
      Others(w, alone, bad, home, KeyOf(ProgOf(c)), [box]);
      Keep(w, c, 0, v, bad);
    }

    /** The first request is loaded, if it is interpreted, run, and its result stored if it has no stderr. */
    method Try(w: World, c: Call, box: nat, prep: Prepared, ghost alone: bool, ghost bad: set<Prog>,
            ghost home: map<nat, string>)
      returns (r: Attempt)
      requires WorldOk(w) && Fit(w, bad, home, KeyOf(ProgOf(c)), [box]) && OfPair(ProgOf(c))
      requires KnowsBuild(w, ProgOf(c), prep.runnable, prep.stderr) && box in docker.files
      requires prep.runnable && Compiled(ProgOf(c).lang) && Whole(w, ProgOf(c)) ==>
        Loaded(w, ProgOf(c), docker.files[box])
      modifies `permits, `away, pool, docker`files, docker`past, redis
      ensures Fit(w, bad, home, KeyOf(ProgOf(c)), [box]) && box in docker.files
      ensures alone ==> unchanged(`permits) && unchanged(pool)
      ensures SinceLoaded(old(docker.past), docker.past) && OnlyFailed(old(redis.past), redis.past)
      ensures MayRan(old(docker.past).ran, docker.past.ran, box)
      ensures r.Success? ==> !Refused(c, 0, prep)
      ensures r.Success? && Clean(w, bad, ProgOf(c)) && prep.stderr == "" ==> r.v == Want(w, c, 0)
      ensures r.Success? && prep.runnable && Whole(w, ProgOf(c)) ==> Loaded(w, ProgOf(c), docker.files[box])
      ensures Accounted(r, Refused(c, 0, prep), old(docker.past), docker.past)
      ensures alone ==>
        redis.store == (if r.Success? && r.v.stderr.None? && redis.past.failures == old(redis.past).failures
                        then old(redis.store)[Key(w, c, 0) := ResultEntry(r.v)] else old(redis.store))
      ensures alone && old(HasArtifact(w, ProgOf(c))) ==> HasArtifact(w, ProgOf(c))
    {
      hide PoolKeys, Shelf, Trim, WorldOk, StoreGood, Stocked, Key, Shows;
      var written := WriteFirst(w, c, box, alone, bad, home);
      if !written.Done? {
        return Failure(written.NotStarted?);
      }
      var v, created := RunFirst(w, c, box, prep, alone, bad, home);
      if v.None? {
        return Failure(created);
      }
      KeepFirst(w, c, box, v.value, alone, bad, home);
      r := Success(v.value);
    }

    /** The first request: looked up, or else run; `raw` if its container is left as it was. */
    method Answer(w: World, c: Call, box: nat, prep: Prepared, ghost alone: bool, ghost bad: set<Prog>,
            ghost home: map<nat, string>)
      returns (r: Attempt, ghost raw: bool)
      requires WorldOk(w) && Fit(w, bad, home, KeyOf(ProgOf(c)), [box]) && OfPair(ProgOf(c))
      requires KnowsBuild(w, ProgOf(c), prep.runnable, prep.stderr) && box in docker.files
      requires prep.runnable && Compiled(ProgOf(c).lang) && Whole(w, ProgOf(c)) ==>
        Loaded(w, ProgOf(c), docker.files[box])
      modifies `permits, `away, pool, docker`files, docker`past, redis
      ensures Fit(w, bad, home, KeyOf(ProgOf(c)), [box]) && box in docker.files
      ensures alone ==> unchanged(`permits) && unchanged(pool)
      ensures SinceLoaded(old(docker.past), docker.past) && SinceAsked(old(redis.past), redis.past)
      ensures redis.past.missed == old(redis.past).missed
      ensures MayRan(old(docker.past).ran, docker.past.ran, box)
      ensures r.Success? && Clean(w, bad, ProgOf(c)) ==>
        (prep.stderr == "" ==> r.v == Want(w, c, 0)) && !Refused(c, 0, prep)
      ensures r.Success? && !raw && prep.runnable && Whole(w, ProgOf(c)) ==> Loaded(w, ProgOf(c), docker.files[box])
      ensures raw <==> !Compiled(ProgOf(c).lang) && redis.past.found > old(redis.past).found
      ensures raw ==> r.Success? && docker.files[box] == old(docker.files)[box]
      ensures Accounted(r, Refused(c, 0, prep), old(docker.past), docker.past)
      ensures alone && raw ==> ResultHit(old(redis.store), Key(w, c, 0)) == Some(r.v)
      ensures alone && redis.past.failures == old(redis.past).failures && r.Success? ==>
        AnswerStored(w, c, r.v, raw, old(redis.store), redis.store)
      ensures alone && raw ==> docker.files == old(docker.files) && redis.store == old(redis.store)
      ensures alone && old(HasArtifact(w, ProgOf(c))) ==> HasArtifact(w, ProgOf(c))
      ensures alone ==> KeepsResults(old(redis.store), redis.store, ArtifactKey(w, ProgOf(c)))
      ensures var hit := ResultHit(old(redis.store), Key(w, c, 0));
        alone && redis.past.failures == old(redis.past).failures && hit.Some? ==>
          r == Success(hit.value) && docker.past == old(docker.past)
    {
      hide KeepsResults, PoolKeys, Shelf, Trim, FreshBuild, OneDocument, Prepped, Key, KnowsBuild, InOrder;
      KeepsStored(redis.store, ArtifactKey(w, ProgOf(c)), "", PLACEHOLDER);
      var hit := Seek(w, c, box, alone, bad, home);
      if hit.Some? {
        if Refused(c, 0, prep) && Clean(w, bad, ProgOf(c)) {
          RefusedShowsStderr(w, c, prep);
        }
        return Success(hit.value), !Compiled(ProgOf(c).lang);
      }
      ghost var store := redis.store;
      r := Try(w, c, box, prep, alone, bad, home);
      raw := false;
      KeepsStored(store, ArtifactKey(w, ProgOf(c)), Key(w, c, 0), if r.Success? then r.v else PLACEHOLDER);
    }

    /** The container is prepared, whatever others did before. */
    method Ready(w: World, c: Call, box: nat, ghost alone: bool, ghost bad: set<Prog>, ghost home: map<nat, string>)
      returns (r: Option<Prepared>)
      requires WorldOk(w) && Fit(w, bad, home, KeyOf(ProgOf(c)), [box]) && OfPair(ProgOf(c))
      modifies `permits, `away, pool, docker`files, docker`past, redis
      ensures Fit(w, bad, home, KeyOf(ProgOf(c)), [box]) && box in docker.files
      ensures alone ==> unchanged(`permits) && unchanged(pool)
      ensures OnlyPassedOn(old(docker.past), docker.past) && OnlyFailed(old(redis.past), redis.past)
      ensures r.Some? ==> KnowsBuild(w, ProgOf(c), r.value.runnable, r.value.stderr)
      ensures r.Some? && r.value.runnable && Compiled(ProgOf(c).lang) && Whole(w, ProgOf(c)) ==>
        Loaded(w, ProgOf(c), docker.files[box])
      ensures if r.None? then docker.past.failures > old(docker.past).failures || UnfitBuild(w, c)
              else docker.past == old(docker.past).(built := docker.past.built)
      ensures alone && r.Some? && r.value.runnable && Compiled(ProgOf(c).lang) ==>
        redis.past.failures > old(redis.past).failures || HasArtifact(w, ProgOf(c))
      ensures alone && !Compiled(ProgOf(c).lang) ==>
        docker.files == old(docker.files) && redis.store == old(redis.store)
      ensures alone ==> KeepsResults(old(redis.store), redis.store, ArtifactKey(w, ProgOf(c)))
      ensures alone ==> forall k :: 0 <= k < Count(c) ==>
        ResultHit(redis.store, Key(w, c, k)) == ResultHit(old(redis.store), Key(w, c, k))
      ensures !Compiled(ProgOf(c).lang) ==> docker.past.built == old(docker.past).built
      ensures alone && old(HasArtifact(w, ProgOf(c))) && redis.past.failures == old(redis.past).failures ==>
        docker.past.built == old(docker.past).built
    {
      hide KeepsResults, PoolKeys, Shelf, Trim;
      assert box in [box];
      Others(w, alone, bad, home, KeyOf(ProgOf(c)), [box]);
      ghost var store := redis.store;
      r := Prepare(w, c, box, bad);
      KeepsOff(store, redis.store, ArtifactKey(w, ProgOf(c)));
      forall k | 0 <= k < Count(c) ensures ResultHit(redis.store, Key(w, c, k)) == ResultHit(store, Key(w, c, k)) {
        ResultStays(w, c, k, store, redis.store);
      }
    }

    // -------------------------------------------------------------- execute

    /** `execute` with its container prepared. */
    method Reply(w: World, c: Call, box: nat, prep: Prepared, ghost alone: bool, ghost bad: set<Prog>,
            ghost home: map<nat, string>)
      returns (out: Outcome, back: bool)
      requires WorldOk(w) && Fit(w, bad, home, KeyOf(ProgOf(c)), [box]) && OfPair(ProgOf(c))
      requires c.kind.Direct? && c.rest == [] && box in docker.files
      requires KnowsBuild(w, ProgOf(c), prep.runnable, prep.stderr) && prep.stderr == ""
      requires prep.runnable && Compiled(ProgOf(c).lang) && Whole(w, ProgOf(c)) ==>
        Loaded(w, ProgOf(c), docker.files[box])
      modifies `permits, `away, pool, docker`files, docker`past, redis
      ensures Fit(w, bad, home, KeyOf(ProgOf(c)), [box])
      ensures alone ==> unchanged(`permits) && unchanged(pool)
      ensures if out.Ok? then back && |out.results| == 1 else out.Err?
      ensures out.Ok? && Clean(w, bad, ProgOf(c)) ==> out.results[0] == Want(w, c, 0)
      ensures SinceLoaded(old(docker.past), docker.past) && SinceAsked(old(redis.past), redis.past)
      ensures MayRan(old(docker.past).ran, docker.past.ran, box)
      ensures out.Err? ==> docker.past.failures > old(docker.past).failures || !Doable(w, c)
      ensures Doable(w, c) ==> (back <==> docker.past.hard == old(docker.past).hard)
      ensures alone && out.Ok? && out.results[0].stderr.None? && redis.past.failures == old(redis.past).failures ==>
        ResultHit(redis.store, Key(w, c, 0)) == Some(out.results[0])
      ensures alone ==> KeepsResults(old(redis.store), redis.store, ArtifactKey(w, ProgOf(c)))
      ensures var hit := ResultHit(old(redis.store), Key(w, c, 0));
        alone && redis.past.failures == old(redis.past).failures && hit.Some? ==>
          out == Ok([hit.value]) && docker.past == old(docker.past)
    {
      if Refused(c, 0, prep) {
        RefusedIsUndoable(w, c, 0, prep);
      }
      var first;
      ghost var raw;
      first, raw := Answer(w, c, box, prep, alone, bad, home);
      match first
      case Failure(returned) => out, back := Err, returned;
      case Success(v) => out, back := Ok([v]), true;
    }

    /** `execute` with its container: the outcome, and whether the container is handed back. */
    method Respond(w: World, c: Call, box: nat, ghost alone: bool, ghost bad: set<Prog>, ghost home: map<nat, string>)
      returns (out: Outcome, back: bool)
      requires WorldOk(w) && Fit(w, bad, home, KeyOf(ProgOf(c)), [box]) && OfPair(ProgOf(c))
      requires c.kind.Direct? && c.rest == []
      modifies `permits, `away, pool, docker`files, docker`past, redis
      ensures Fit(w, bad, home, KeyOf(ProgOf(c)), [box])
      ensures alone ==> unchanged(`permits) && unchanged(pool)
      ensures out.Ok? ==> back && |out.results| == 1
      ensures out.Ok? && Clean(w, bad, ProgOf(c)) ==> out.results == Expected(w, c)
      ensures !out.Fault?
      ensures Since(old(docker.past), docker.past) && SinceAsked(old(redis.past), redis.past)
      ensures MayRan(old(docker.past).ran, docker.past.ran, box)
      ensures out.Err? ==> docker.past.failures > old(docker.past).failures || !Doable(w, c)
      ensures Doable(w, c) ==> (back <==> docker.past.hard == old(docker.past).hard)
      ensures alone && out.Ok? && out.results[0].stderr.None? && redis.past.failures == old(redis.past).failures ==>
        ResultHit(redis.store, Key(w, c, 0)) == Some(out.results[0])
      ensures alone ==> KeepsResults(old(redis.store), redis.store, ArtifactKey(w, ProgOf(c)))
      ensures !Compiled(ProgOf(c).lang) ==> docker.past.built == old(docker.past).built
      ensures alone && old(HasArtifact(w, ProgOf(c))) && redis.past.failures == old(redis.past).failures ==>
        docker.past.built == old(docker.past).built
      ensures var hit := ResultHit(old(redis.store), Key(w, c, 0));
        alone && Flawless(old(docker.past), docker.past, old(redis.past), redis.past) && hit.Some? ==>
          Doable(w, c) && !FailsToBuild(w, ProgOf(c)) ==>
            out == Ok([hit.value]) && docker.past.ran == old(docker.past).ran
    {
      hide PoolKeys, Shelf, Trim, InOrder;
      ghost var store := redis.store;
      var prep := Ready(w, c, box, alone, bad, home);
      ghost var between := redis.store;
      if prep.None? {
        return Err, false;
      }
      if prep.value.stderr != "" {
        return Ok([CompileError(prep.value.stderr)]), true;
      }
      out, back := Reply(w, c, box, prep.value, alone, bad, home);
      if alone {
        KeepsOn(store, between, redis.store, ArtifactKey(w, ProgOf(c)));
      }
    }

    /** `execute` with its container, which is handed back or lost. */
    method ExecuteWith(w: World, c: Call, box: nat, ghost alone: bool, ghost bad: set<Prog>,
            ghost home: map<nat, string>, ghost entry: Pool)
      returns (out: Outcome)
      requires WorldOk(w) && Fit(w, bad, home, KeyOf(ProgOf(c)), [box]) && OfPair(ProgOf(c))
      requires c.kind.Direct? && c.rest == [] && Take(entry, KeyOf(ProgOf(c))) == (pool.pool, Some(box))
      modifies `permits, `away, pool, docker`files, docker`past, redis
      ensures Fit(w, bad, home, "", []) && (alone ==> permits == old(permits))
      ensures out.Ok? ==> |out.results| == 1
      ensures out.Ok? && Clean(w, bad, ProgOf(c)) ==> out.results == Expected(w, c)
      ensures !out.Fault?
      ensures Since(old(docker.past), docker.past) && SinceAsked(old(redis.past), redis.past)
      ensures MayRan(old(docker.past).ran, docker.past.ran, box)
      ensures alone ==> LeftBy(w, c, out, entry, pool.pool, docker.past.hard > old(docker.past).hard)
      ensures out.Err? ==> docker.past.failures > old(docker.past).failures || !Doable(w, c)
      ensures alone && out.Ok? && out.results[0].stderr.None? && redis.past.failures == old(redis.past).failures ==>
        ResultHit(redis.store, Key(w, c, 0)) == Some(out.results[0])
      ensures alone ==> KeepsResults(old(redis.store), redis.store, ArtifactKey(w, ProgOf(c)))
      ensures !Compiled(ProgOf(c).lang) ==> docker.past.built == old(docker.past).built
      ensures alone && old(HasArtifact(w, ProgOf(c))) && redis.past.failures == old(redis.past).failures ==>
        docker.past.built == old(docker.past).built
      ensures var hit := ResultHit(old(redis.store), Key(w, c, 0));
        alone && Flawless(old(docker.past), docker.past, old(redis.past), redis.past) && hit.Some? ==>
          Doable(w, c) && !FailsToBuild(w, ProgOf(c)) ==>
            out == Ok([hit.value]) && docker.past.ran == old(docker.past).ran
    {
      ghost var taken := pool.pool;
      var back;
      out, back := Respond(w, c, box, alone, bad, home);
      if back {
        HandBack(ProgOf(c), box, home);
      } else {
        StockedDrop(pool.pool, [box], KeyOf(ProgOf(c)), "", home);
      }
      if alone {
        LeftIs(w, c, out, entry, taken, box, pool.pool, back, docker.past.hard > old(docker.past).hard);
      }
    }

    /** The first container of a call, if its request is accepted and there is one. */
    method Open(w: World, c: Call, ghost alone: bool, ghost bad: set<Prog>, ghost home: map<nat, string>)
      returns (box: Option<nat>, ghost entry: Pool)
      requires WorldOk(w) && Fit(w, bad, home, "", [])
      modifies `permits, `away, pool, docker`files, redis`store
      ensures alone ==> entry == old(pool.pool) && permits == old(permits) && unchanged(docker) && unchanged(redis)
      ensures box.None? ==> Fit(w, bad, home, "", []) && (alone ==> pool.pool == entry)
      ensures box.None? <==> !Accepted(c) || Depth(entry, KeyOf(ProgOf(c))) == 0
      ensures box.Some? ==> Fit(w, bad, home, KeyOf(ProgOf(c)), [box.value]) && OfPair(ProgOf(c))
      ensures box.Some? ==> Take(entry, KeyOf(ProgOf(c))) == (pool.pool, box)
    {
      var p := ProgOf(c);
      entry := pool.pool;
      if !Accepted(c) {
        return None, pool.pool;
      }
      Others(w, alone, bad, home, "", []);
      StockedDrop(pool.pool, [], "", KeyOf(p), home);
      entry := pool.pool;
      box := pool.GetContainer(p.lang, p.ver);
      if box.Some? {
        PairOfPool(c);
        StockedTake(entry, [], KeyOf(p), home, box.value);
        assert [] + [box.value] == [box.value];
      }
    }

    /** `execute` once it has its permit. */
    method ExecuteHolding(w: World, c: Call, ghost alone: bool, ghost bad: set<Prog>, ghost home: map<nat, string>)
      returns (out: Outcome)
      requires WorldOk(w) && Fit(w, bad, home, "", []) && c.kind.Direct? && c.rest == []
      modifies `permits, `away, pool, docker`files, docker`past, redis
      ensures Fit(w, bad, home, "", []) && (alone ==> permits == old(permits))
      ensures out.Ok? ==> |out.results| == 1
      ensures out.Ok? && Clean(w, bad, ProgOf(c)) ==> out.results == Expected(w, c)
      ensures !out.Fault?
      ensures Since(old(docker.past), docker.past) && SinceAsked(old(redis.past), redis.past)
      ensures alone ==> LeftBy(w, c, out, old(pool.pool), pool.pool, docker.past.hard > old(docker.past).hard)
      ensures alone && out.Err? ==> docker.past.failures > old(docker.past).failures || !Feasible(w, c, old(pool.pool))
      ensures alone && out.Ok? && out.results[0].stderr.None? && redis.past.failures == old(redis.past).failures ==>
        ResultHit(redis.store, Key(w, c, 0)) == Some(out.results[0])
      ensures alone ==> KeepsResults(old(redis.store), redis.store, ArtifactKey(w, ProgOf(c)))
      ensures !Accepted(c) ==> out.Err?
      ensures !Compiled(ProgOf(c).lang) ==> docker.past.built == old(docker.past).built
      ensures alone && old(HasArtifact(w, ProgOf(c))) && redis.past.failures == old(redis.past).failures ==>
        docker.past.built == old(docker.past).built
      ensures var hit := ResultHit(old(redis.store), Key(w, c, 0));
        alone && Flawless(old(docker.past), docker.past, old(redis.past), redis.past) && hit.Some? ==>
          Feasible(w, c, old(pool.pool)) && !FailsToBuild(w, ProgOf(c)) ==>
            out == Ok([hit.value]) && docker.past.ran == old(docker.past).ran
    {
      var box;
      ghost var entry;
      KeepsStored(redis.store, ArtifactKey(w, ProgOf(c)), "", PLACEHOLDER);
      box, entry := Open(w, c, alone, bad, home);
      if box.None? {
        if alone {
          NothingLeft(w, c, entry);
        }
        return Err;
      }
      out := ExecuteWith(w, c, box.value, alone, bad, home, entry);
    }

    /**
     * A permit is acquired: other calls act until there is one; if none is free, one of them frees its own. (That
     * one does is the subject of `Progress`.)
     */
    method Acquire(w: World, ghost alone: bool, ghost bad: set<Prog>, ghost home: map<nat, string>)
      requires WorldOk(w) && Fit(w, bad, home, "", []) && Entering(alone)
      modifies this, pool, docker`files, redis`store
      ensures Fit(w, bad, home, "", []) && inside == 1
      ensures alone ==> permits == old(permits) - 1 && unchanged(pool) && unchanged(docker) && unchanged(redis)
    {
      hide PoolKeys, Shelf, Trim, InOrder;
      Others(w, alone, bad, home, "", []);
      if permits == 0 {
        permits, away := 1, away - 1;
      }
      permits, inside := permits - 1, 1;
    }

    /** The permit is given back. */
    method Release(w: World, ghost bad: set<Prog>, ghost home: map<nat, string>)
      requires Fit(w, bad, home, "", []) && inside == 1
      modifies `permits, `inside
      ensures Fit(w, bad, home, "", []) && inside == 0 && permits == old(permits) + 1
    {
      permits, inside := permits + 1, 0;
    }

    /**
     * `execute`: whatever other calls do between its operations, an Ok result is the answer to the request, for
     * every program that is neither bad before nor spoilt by one of them meanwhile; `foul` are those spoilt so. A
     * language that is not supported is an error. With no other call in flight the permits are as before, and so
     * is the pool, unless an operation fails in a way that is passed on by `?`: then the container is lost. Unless
     * the cache fails, a result without stderr is in it afterwards, a result that was in it is returned and nothing
     * run, and an artifact that was in it is used and nothing compiled. There is an error only if the engine fails, the
     * request is not supported, the pair has no free container, or the build is one that cannot be run.
     */
    method Execute(w: World, r: Request, ghost alone: bool, ghost bad: set<Prog>, ghost foul: set<Prog>,
            ghost home: map<nat, string>)
      returns (out: Outcome)
      requires WorldOk(w) && Fit(w, bad, home, "", []) && Entering(alone)
      modifies this, pool, docker`files, docker`past, redis
      ensures Fit(w, bad + foul, home, "", []) && inside == 0 && (alone ==> permits == old(permits))
      ensures out.Ok? ==> |out.results| == 1
      ensures out.Ok? && Clean(w, bad + foul, ProgramOf(r)) ==> Answers(w, r, r.stdin, out.results[0])
      ensures !out.Fault? && (!Supported(r) ==> out.Err?)
      ensures Since(old(docker.past), docker.past) && SinceAsked(old(redis.past), redis.past)
      ensures alone ==>
        LeftBy(w, NewCall(Direct, r, []), out, old(pool.pool), pool.pool, docker.past.hard > old(docker.past).hard)
      ensures alone && out.Err? ==> docker.past.failures > old(docker.past).failures || !CanServe(w, r, old(pool.pool))
      ensures var key := ResultKey(w, ProgramOf(r), Allowed(w, r), r.stdin);
        alone && out.Ok? && out.results[0].stderr.None? && redis.past.failures == old(redis.past).failures ==>
          key in redis.store && redis.store[key] == ResultEntry(out.results[0])
      ensures alone ==> KeepsResults(old(redis.store), redis.store, ArtifactKey(w, ProgramOf(r)))
      ensures var artifact := ArtifactKey(w, ProgramOf(r));
        alone && artifact in old(redis.store) && old(redis.store)[artifact].ArtifactEntry? ==>
          redis.past.failures == old(redis.past).failures ==> docker.past.built == old(docker.past).built
      ensures var key := ResultKey(w, ProgramOf(r), Allowed(w, r), r.stdin);
        alone && Flawless(old(docker.past), docker.past, old(redis.past), redis.past) && key in old(redis.store) ==>
          old(redis.store)[key].ResultEntry? && CanServe(w, r, old(pool.pool)) && !IsRejected(w, r) ==>
            && out.Ok? && old(redis.store)[key] == ResultEntry(out.results[0])
            && docker.past.ran == old(docker.past).ran
    {
      hide KeepsResults, LeftBy, InOrder, Answers, CanServe, Supported, PoolKeys, Shelf, Trim, FreshBuild, OneDocument;
      ghost var c := NewCall(Direct, r, []);
      FeasibleExactly(w, c, pool.pool);
      SupportedExactly(c);
      OrderGrows(w, bad, bad + foul, home, redis.store, docker.files, pool.pool);
      RejectedExactly(w, r);
      Acquire(w, alone, bad + foul, home);
      out := ExecuteHolding(w, NewCall(Direct, r, []), alone, bad + foul, home);
      if out.Ok? && Clean(w, bad + foul, ProgOf(c)) {
        ExpectedIsAnswer(w, bad + foul, c, out.results);
      }
      Release(w, bad + foul, home);
    }

    /** The early lookup, under the raw fields of the request and 1.0 for an absent timeout. */
    method CachedEarly(w: World, r: Request, ghost bad: set<Prog>) returns (v: Option<Visible>)
      requires WorldOk(w) && StoreGood(w, bad, redis.store)
      modifies redis`past
      ensures OnlyFailed(old(redis.past), redis.past)
      ensures v.Some? ==> QuicklyFound(w, r, redis.store) && redis.store[QuickKey(w, r)] == ResultEntry(v.value)
      ensures v.None? && redis.past.failures == old(redis.past).failures ==> !QuicklyFound(w, r, redis.store)
      ensures v.Some? ==> v.value.stderr.None? && Served(w, bad, r, v.value)
    {
      hide Answers, Fresh, OneDocument, FreshBuild, Trim, PoolKeys;
      var reply := redis.GetFromCache(EarlyKey(w, r), false);
      v := None;
      if reply.Answer? && reply.value.Some? {
        v := reply.value;
        ghost var c := NewCall(Handled, r, []);
        HitIsWanted(w, bad, redis.store, Prog(r.language, r.version, r.code),
                    match r.timeout case Some(t) => t case None => w.second, r.stdin);
        if Clean(w, bad, ProgramOf(r)) && QuickIsPatient(w, r) {
          EarlyHit(w, State(Custody(0, map[], map[], {}, map[], [], map[]), map[], redis.store, [], bad), c);
          WantIsAnswer(w, bad, c, v.value);
        }
      }
    }

    /** One request of `execute_parallel`: looked up early, or else executed; an error becomes a result. */
    method AnswerEarly(w: World, r: Request, ghost alone: bool, ghost bad: set<Prog>, ghost home: map<nat, string>)
      returns (v: Visible)
      requires WorldOk(w) && Fit(w, bad, home, "", []) && Entering(alone)
      modifies this, pool, docker`files, docker`past, redis
      ensures Fit(w, bad, home, "", []) && inside == 0 && (alone ==> permits == old(permits))
      ensures Answered(w, bad, r, v)
      ensures Since(old(docker.past), docker.past) && SinceAsked(old(redis.past), redis.past)
      ensures QuicklyFound(w, r, old(redis.store)) && redis.past.failures == old(redis.past).failures ==>
        old(redis.store)[QuickKey(w, r)] == ResultEntry(v) && v.stderr.None? && Served(w, bad, r, v)
      ensures alone && docker.past.failures == old(docker.past).failures && CanServe(w, r, old(pool.pool)) ==>
        Served(w, bad, r, v) && pool.pool == old(pool.pool)
      ensures alone ==> KeepsResults(old(redis.store), redis.store, ArtifactKey(w, ProgramOf(r)))
    {
      hide KeepsResults, InOrder, Answers, CanServe, Supported, PoolKeys, Shelf, Trim, FreshBuild, OneDocument;
      FeasibleExactly(w, NewCall(Direct, r, []), pool.pool);
      OrderIs(w, bad, home, "", [], redis.store, docker.files, pool.pool);
      KeepsStored(redis.store, ArtifactKey(w, ProgramOf(r)), "", PLACEHOLDER);
      var early := CachedEarly(w, r, bad);
      if early.Some? {
        return early.value;
      }
      assert bad + {} == bad;
      var out := Execute(w, r, alone, bad, {}, home);
      var message: string := *;
      v := if out.Ok? then out.results[0] else ErrorResult(message);
    }

    /**
     * `execute_parallel`: one answer each, whatever other calls, or the other requests of this one, do
     * between the operations of a request. `alone` says that the requests come one after the other and with no other
     * call in flight: then, unless the engine fails, each has its answer if all can be served; and, unless the cache
     * fails, each whose result was in it from the start has no error, whatever there is for it to run on.
     */
    method ExecuteParallel(w: World, requests: seq<Request>, ghost alone: bool, ghost bad: set<Prog>,
            ghost foul: set<Prog>, ghost home: map<nat, string>)
      returns (results: seq<Visible>)
      requires WorldOk(w) && Fit(w, bad, home, "", []) && Entering(alone)
      modifies this, pool, docker`files, docker`past, redis
      ensures Fit(w, bad + foul, home, "", []) && inside == 0 && (alone ==> permits == old(permits))
      ensures Since(old(docker.past), docker.past) && SinceAsked(old(redis.past), redis.past)
      ensures |results| == |requests| && AllAnswered(w, bad + foul, requests, results)
      ensures alone && docker.past.failures == old(docker.past).failures && AllFeasible(w, requests, old(pool.pool)) ==>
        AllServed(w, bad + foul, requests, results)
      ensures alone && redis.past.failures == old(redis.past).failures ==>
        FoundServed(w, bad + foul, requests, results, old(redis.store))
    {
      hide PoolKeys, Shelf, Trim, Answered, Served, InOrder, CanServe, KeepsResults, QuicklyFound, FoundServed,
        AllFound;
      ghost var worse := bad + foul;
      OrderGrows(w, bad, worse, home, redis.store, docker.files, pool.pool);
      results := [];
      FoundStarts(w, worse, requests, redis.store);
      for i := 0 to |requests|
        invariant Fit(w, worse, home, "", []) && inside == 0 && (alone ==> permits == old(permits))
        invariant Since(old(docker.past), docker.past) && SinceAsked(old(redis.past), redis.past)
        invariant |results| == i && AllAnswered(w, worse, requests, results)
        invariant alone && docker.past.failures == old(docker.past).failures ==>
          AllFeasible(w, requests, old(pool.pool)) ==>
            pool.pool == old(pool.pool) && AllServed(w, worse, requests, results)
        invariant alone ==> AllFound(w, requests, old(redis.store), redis.store)
        invariant alone && redis.past.failures == old(redis.past).failures ==>
          FoundServed(w, worse, requests, results, old(redis.store))
      {
        ghost var store := redis.store;
        var v := AnswerEarly(w, requests[i], alone, worse, home);
        FoundMore(w, worse, requests, results, v, old(redis.store), store, redis.store);
        results := results + [v];
      }
    }

    // -------------------------------------------------------------- execute_batch: containers

    /**
     * A further container is loaded, or kept as it is (`left`) if the artifact is not found or the write is
     * late.
     */
    method LoadExtra(w: World, p: Prog, box: nat, ghost bad: set<Prog>) returns (ok: bool, ghost left: bool)
      requires WorldOk(w) && StoreGood(w, bad, redis.store) && box in docker.files
      modifies docker`files, docker`past, redis`past
      ensures OnlyAt(old(docker.files), docker.files, box)
      ensures ok && !left && Whole(w, p) && Runs(w, p) ==> Loaded(w, p, docker.files[box])
      ensures SinceLoaded(old(docker.past), docker.past) && SinceAsked(old(redis.past), redis.past)
      ensures docker.past.ran == old(docker.past).ran
      ensures !ok ==> docker.past.hard > old(docker.past).hard
      ensures left <==> Excused(p, old(docker.past), docker.past, old(redis.past), redis.past)
      ensures left && Flawless(old(docker.past), docker.past, old(redis.past), redis.past) ==>
        Compiled(p.lang) && !HasArtifact(w, p)
    {
      hide OneDocument, FreshBuild, PoolKeys;
      if Compiled(p.lang) {
        var reply := redis.GetArtifact(ArtifactKey(w, p), true);
        if reply.Answer? && reply.value.Some? {
          ArtifactHitIsOurs(w, bad, redis.store, p);
          if Whole(w, p) {
            UnpackLoads(w, p, reply.value.value, docker.files[box]);
          }
          ok := docker.Upload(box, Primary(p.lang), reply.value.value);
          left := false;
        } else {
          ok, left := true, true;
        }
      } else {
        var written := docker.Echo(box, SourceFile(p.lang), p.code);
        ok, left := !written.NotCreated?, written.NotStarted?;
      }
    }

    /** The container on top of the stack of the program's pair, if there is one. */
    method TakeOne(p: Prog, mine: seq<nat>, ghost home: map<nat, string>) returns (taken: bool, box: nat)
      requires Stocked(pool.pool, mine, KeyOf(p), home) && KeyOf(p) in pool.pool
      modifies pool
      ensures taken <==> old(pool.pool)[KeyOf(p)] != []
      ensures !taken ==> pool.pool == old(pool.pool)
      ensures taken ==> var stack := old(pool.pool)[KeyOf(p)];
        box == stack[|stack| - 1] && Restacked(old(pool.pool), pool.pool, KeyOf(p), stack[..|stack| - 1])
      ensures taken ==> box !in mine
      ensures Stocked(pool.pool, if taken then mine + [box] else mine, KeyOf(p), home)
    {
      var r := pool.GetContainer(p.lang, p.ver);
      match r
      case None => taken, box := false, 0;
      case Some(c) =>
        StockedTake(old(pool.pool), mine, KeyOf(p), home, c);
        taken, box := true, c;
    }

    /** One more container is taken, if there is one, and loaded; a failure to load it may end the batch. */
    method AddOne(w: World, p: Prog, mine: seq<nat>, ghost raw: set<nat>, prep: Prepared, ghost alone: bool,
            ghost bad: set<Prog>, ghost home: map<nat, string>)
      returns (ok: bool, containers: seq<nat>, ghost raw': set<nat>)
      requires WorldOk(w) && Fit(w, bad, home, KeyOf(p), mine) && OfPair(p)
      requires (prep.runnable && Whole(w, p) ==> Runs(w, p)) && Prepped(w, p, prep, mine, raw, docker.files)
      modifies `permits, `away, pool, docker`files, docker`past, redis
      ensures Fit(w, bad, home, KeyOf(p), containers) && (!ok ==> containers == [])
      ensures ok ==> Prepped(w, p, prep, containers, raw', docker.files) && mine <= containers
      ensures ok ==> |containers| <= |mine| + 1
      ensures ok ==> var excused := Excused(p, old(docker.past), docker.past, old(redis.past), redis.past);
        if excused then |containers| > |mine| && raw' == raw + {containers[|mine|]} else raw' == raw
      ensures alone ==> permits == old(permits) && redis.store == old(redis.store)
      ensures alone ==> var stack := old(pool.pool)[KeyOf(p)];
        && SameBut(old(pool.pool), pool.pool, KeyOf(p))
        && (ok && stack == [] ==> containers == mine && pool.pool == old(pool.pool))
        && (ok && stack != [] ==> containers == mine + [stack[|stack| - 1]])
        && (ok && stack != [] ==> Restacked(old(pool.pool), pool.pool, KeyOf(p), stack[..|stack| - 1]))
      ensures alone ==> forall x :: x in mine ==> x in docker.files && docker.files[x] == old(docker.files)[x]
      ensures SinceLoaded(old(docker.past), docker.past) && SinceAsked(old(redis.past), redis.past)
      ensures docker.past.ran == old(docker.past).ran
      ensures !ok ==> docker.past.hard > old(docker.past).hard
      ensures alone && !ok ==> |pool.pool[KeyOf(p)]| < |old(pool.pool)[KeyOf(p)]|
      ensures alone && Flawless(old(docker.past), docker.past, old(redis.past), redis.past) ==>
        raw' == raw || (Compiled(p.lang) && !HasArtifact(w, p))
    {
      hide PoolKeys, Shelf, Trim, InOrder;
      Others(w, alone, bad, home, KeyOf(p), mine);
      OrderIs(w, bad, home, KeyOf(p), mine, redis.store, docker.files, pool.pool);
      PreppedStays(w, p, prep, mine, raw, old(docker.files), docker.files);
      var taken, box := TakeOne(p, mine, home);
      if !taken {
        return true, mine, raw;
      }
      assert box in mine + [box];
      StockedDrop(pool.pool, mine + [box], KeyOf(p), KeyOf(p), home);
      ghost var left, before := false, docker.files;
      ok, left := LoadExtra(w, p, box, bad);
      containers := if ok then mine + [box] else [];
      raw' := if left then raw + {box} else raw;
      OrderIs(w, bad, home, KeyOf(p), containers, redis.store, docker.files, pool.pool);
      if ok {
        PreppedMore(w, p, prep, mine, raw, box, before, docker.files, left);
      }
    }

    /** Up to `count` more containers are taken and loaded; the raw ones are those kept as they were. */
    method Fill(w: World, c: Call, count: nat, mine: seq<nat>, ghost raw: set<nat>, prep: Prepared,
            ghost alone: bool, ghost bad: set<Prog>, ghost home: map<nat, string>)
      returns (ok: bool, containers: seq<nat>, ghost raw': set<nat>)
      requires WorldOk(w) && Fit(w, bad, home, KeyOf(ProgOf(c)), mine) && OfPair(ProgOf(c))
      requires KnowsBuild(w, ProgOf(c), prep.runnable, prep.stderr)
      requires Prepped(w, ProgOf(c), prep, mine, raw, docker.files)
      modifies `permits, `away, pool, docker`files, docker`past, redis
      ensures Fit(w, bad, home, KeyOf(ProgOf(c)), containers) && (!ok ==> containers == [])
      ensures ok ==> Prepped(w, ProgOf(c), prep, containers, raw', docker.files) && mine <= containers
      ensures ok ==> |containers| <= |mine| + count && raw <= raw'
      ensures ok ==>
        (raw' == raw || Excused(ProgOf(c), old(docker.past), docker.past, old(redis.past), redis.past))
      ensures alone ==> permits == old(permits) && redis.store == old(redis.store)
      ensures alone ==> SameBut(old(pool.pool), pool.pool, KeyOf(ProgOf(c)))
      ensures alone && ok ==> var stack := old(pool.pool)[KeyOf(ProgOf(c))];
        Grown(mine, stack, count, containers, pool.pool[KeyOf(ProgOf(c))])
      ensures alone ==> forall x :: x in mine ==> x in docker.files && docker.files[x] == old(docker.files)[x]
      ensures SinceLoaded(old(docker.past), docker.past) && SinceAsked(old(redis.past), redis.past)
      ensures docker.past.ran == old(docker.past).ran
      ensures !ok ==> docker.past.hard > old(docker.past).hard
      ensures alone && !ok ==> |pool.pool[KeyOf(ProgOf(c))]| < |old(pool.pool)[KeyOf(ProgOf(c))]|
      ensures alone && Flawless(old(docker.past), docker.past, old(redis.past), redis.past) ==>
        raw' == raw || (Compiled(ProgOf(c).lang) && !HasArtifact(w, ProgOf(c)))
    {
      hide PoolKeys, Shelf, Trim, FreshBuild, OneDocument, Prepped, Grown, WorldOk, StoreGood;
      var p := ProgOf(c);
      ghost var stack := pool.pool[KeyOf(p)];
      ok, containers, raw' := true, mine, raw;
      GrownStarts(mine, stack);
      for i := 0 to count
        invariant Fit(w, bad, home, KeyOf(p), containers) && mine <= containers && |containers| <= |mine| + i
        invariant Prepped(w, p, prep, containers, raw', docker.files)
        invariant raw <= raw'
        invariant raw' == raw || Excused(p, old(docker.past), docker.past, old(redis.past), redis.past)
        invariant alone ==> permits == old(permits) && redis.store == old(redis.store)
        invariant alone ==> SameBut(old(pool.pool), pool.pool, KeyOf(p))
        invariant alone ==> Grown(mine, stack, i, containers, pool.pool[KeyOf(p)])
        invariant alone ==> forall x :: x in mine ==> x in docker.files && docker.files[x] == old(docker.files)[x]
        invariant SinceLoaded(old(docker.past), docker.past) && SinceAsked(old(redis.past), redis.past)
        invariant docker.past.ran == old(docker.past).ran
        invariant alone && Flawless(old(docker.past), docker.past, old(redis.past), redis.past) ==>
          raw' == raw || (Compiled(p.lang) && !HasArtifact(w, p))
      {
        if alone {
          GrownMore(mine, stack, i, containers, pool.pool[KeyOf(p)]);
        }
        ok, containers, raw' := AddOne(w, p, containers, raw', prep, alone, bad, home);
        if !ok {
          return;
        }
      }
    }

    /** All containers are handed back, in order. */
    method Drain(p: Prog, containers: seq<nat>, ghost home: map<nat, string>)
      requires Stocked(pool.pool, containers, KeyOf(p), home) && KeyOf(p) in pool.pool
      modifies pool
      ensures Stocked(pool.pool, [], KeyOf(p), home)
      ensures Restacked(old(pool.pool), pool.pool, KeyOf(p), old(pool.pool)[KeyOf(p)] + containers)
    {
      hide PoolKeys, Shelf, Trim;
      for i := 0 to |containers|
        invariant Restacked(old(pool.pool), pool.pool, KeyOf(p), old(pool.pool)[KeyOf(p)] + containers[..i])
        invariant Stocked(pool.pool, containers[i..], KeyOf(p), home)
      {
        StockedGive(pool.pool, containers[i..], KeyOf(p), home);
        pool.ReturnContainer(p.lang, p.ver, containers[i]);
        assert containers[i..][1..] == containers[i + 1..];
        assert containers[..i] + [containers[i]] == containers[..i + 1];
      }
      assert containers[..|containers|] == containers;
    }

    // -------------------------------------------------------------- execute_batch: a chunk

    /** One request of a chunk moves on by one operation: cache lookup, run, cache store. */
    method Advance(w: World, c: Call, k: nat, slot: Slot, box: nat, prep: Prepared, ghost raw: bool,
            ghost bad: set<Prog>)
      returns (next: Slot, ghost spoils: bool)
      requires WorldOk(w) && StoreGood(w, bad, redis.store) && k < Count(c) && box in docker.files
      requires OfPair(ProgOf(c)) && KnowsBuild(w, ProgOf(c), prep.runnable, prep.stderr) && prep.stderr == ""
      requires prep.runnable && Whole(w, ProgOf(c)) && !raw ==> Loaded(w, ProgOf(c), docker.files[box])
      requires !Finished(slot) && SlotFair(w, c, k, slot, bad)
      modifies redis, docker`past
      ensures StoreGood(w, Worse(bad, c, spoils), redis.store) && SlotFair(w, c, k, next, Worse(bad, c, spoils))
      ensures spoils <==> slot.Missed? && raw && prep.runnable && next.Ran?
      ensures Progress.SlotWork(next) < Progress.SlotWork(slot)
      ensures SinceLoaded(old(docker.past), docker.past) && SinceAsked(old(redis.past), redis.past)
      ensures docker.past.ran == old(docker.past).ran + (if slot.Missed? then [Tried(k, box)] else [])
      ensures next.Broken? ==> docker.past.failures > old(docker.past).failures || Refused(c, k, prep)
      ensures old(HasArtifact(w, ProgOf(c))) ==> HasArtifact(w, ProgOf(c))
      ensures redis.past.failures == old(redis.past).failures ==>
        Turned(Key(w, c, k), Shown(w, c, k, prep.runnable, docker.files[box]), slot, next, old(redis.store),
               redis.store)
    {
      hide InOrder, WorldOk, OneDocument, PoolKeys, Trim;
      spoils := false;
      match slot
      case Idle =>
        var hit := Cached(w, c, k, bad);
        next := if hit.Some? then Got(hit.value) else Missed;
      case Missed =>
        var v, created;
        v, created, spoils := RunOnce(w, c, k, box, prep, raw, bad);
        next := if v.Some? then Ran(v.value) else Broken;
      case Ran(v) =>
        Keep(w, c, k, v, bad);
        next := Got(v);
    }

    /** Others act, and then one request of the chunk moves on. */
    method Turn(w: World, c: Call, k: nat, slot: Slot, box: nat, containers: seq<nat>, ghost raw: set<nat>,
            prep: Prepared, ghost key: string, ghost shown: Option<Visible>, ghost alone: bool,
            ghost bad: set<Prog>, ghost home: map<nat, string>)
      returns (next: Slot, ghost spoils: bool)
      requires WorldOk(w) && Fit(w, bad, home, KeyOf(ProgOf(c)), containers) && box in containers && k < Count(c)
      requires OfPair(ProgOf(c)) && KnowsBuild(w, ProgOf(c), prep.runnable, prep.stderr) && prep.stderr == ""
      requires Prepped(w, ProgOf(c), prep, containers, raw, docker.files)
      requires SlotFair(w, c, k, slot, bad) && !Finished(slot)
      requires box in docker.files
      requires alone ==> key == Key(w, c, k) && shown == Shown(w, c, k, prep.runnable, docker.files[box])
      modifies `permits, `away, pool, docker`files, docker`past, redis
      ensures Fit(w, Worse(bad, c, spoils), home, KeyOf(ProgOf(c)), containers)
      ensures forall x :: x in containers ==> x in docker.files && docker.files[x] == old(docker.files)[x]
      ensures SlotFair(w, c, k, next, Worse(bad, c, spoils)) && Progress.SlotWork(next) < Progress.SlotWork(slot)
      ensures spoils <==> slot.Missed? && box in raw && prep.runnable && next.Ran?
      ensures SinceLoaded(old(docker.past), docker.past) && SinceAsked(old(redis.past), redis.past)
      ensures docker.past.ran == old(docker.past).ran + (if slot.Missed? then [Tried(k, box)] else [])
      ensures next.Broken? ==> docker.past.failures > old(docker.past).failures || Refused(c, k, prep)
      ensures alone ==> unchanged(`permits) && unchanged(pool) && docker.files == old(docker.files)
      ensures alone && old(HasArtifact(w, ProgOf(c))) ==> HasArtifact(w, ProgOf(c))
      ensures alone && redis.past.failures == old(redis.past).failures ==>
        Turned(key, shown, slot, next, old(redis.store), redis.store)
    {
      hide PoolKeys, Shelf, Trim;
      Others(w, alone, bad, home, KeyOf(ProgOf(c)), containers);
      PreppedStays(w, ProgOf(c), prep, containers, raw, old(docker.files), docker.files);
      if prep.runnable && Whole(w, ProgOf(c)) && box !in raw {
        ReadyOne(w, ProgOf(c), prep, containers, raw, docker.files, box);
      }
      next, spoils := Advance(w, c, k, slot, box, prep, box in raw, bad);
    }

    /** Request i of the chunk moves on; it runs on box i. `before` are the runs of the batch before the chunk. */
    method Move(w: World, c: Call, from: nat, slots: seq<Slot>, i: nat, boxes: seq<nat>, containers: seq<nat>,
            ghost raw: set<nat>, prep: Prepared, ghost alone: bool, ghost bad: set<Prog>,
            ghost home: map<nat, string>, ghost before: seq<Tried>, ghost keys: seq<string>,
            ghost shown: seq<Option<Visible>>, ghost store: map<string, Entry>, ghost spoilt: bool)
      returns (next: seq<Slot>, ghost spoils: bool)
      requires WorldOk(w) && Fit(w, bad, home, KeyOf(ProgOf(c)), containers)
      requires |boxes| == |slots| && i < |slots| && !Finished(slots[i])
      requires boxes[i] in containers && boxes[i] in docker.files
      requires OfPair(ProgOf(c)) && KnowsBuild(w, ProgOf(c), prep.runnable, prep.stderr) && prep.stderr == ""
      requires Prepped(w, ProgOf(c), prep, containers, raw, docker.files)
      requires SlotsFair(w, c, from, slots, bad) && RanSlots(before, docker.past.ran, from, boxes, slots)
      requires |keys| == |boxes| == |shown|
      requires alone ==> Sheet(w, c, from, prep.runnable, boxes, docker.files, keys, shown)
      modifies `permits, `away, pool, docker`files, docker`past, redis
      ensures Fit(w, Worse(bad, c, spoils), home, KeyOf(ProgOf(c)), containers) && (spoils ==> raw != {})
      ensures forall x :: x in containers ==> x in docker.files && docker.files[x] == old(docker.files)[x]
      ensures |next| == |slots| && SlotsFair(w, c, from, next, Worse(bad, c, spoils))
      ensures Progress.SlotsWork(next) < Progress.SlotsWork(slots)
      ensures SinceLoaded(old(docker.past), docker.past) && SinceAsked(old(redis.past), redis.past)
      ensures RanSlots(before, docker.past.ran, from, boxes, next)
      ensures Broken in next ==>
        || Broken in slots || docker.past.failures > old(docker.past).failures
        || SomeRefused(c, from, from + |slots|, prep)
      ensures alone ==> unchanged(`permits) && unchanged(pool) && docker.files == old(docker.files)
      ensures alone && old(HasArtifact(w, ProgOf(c))) ==> HasArtifact(w, ProgOf(c))
      ensures alone && redis.past.failures == old(redis.past).failures ==>
        Exactly(keys, slots, boxes, raw, prep.runnable, shown[0], store, old(redis.store), spoilt) ==>
          Exactly(keys, next, boxes, raw, prep.runnable, shown[0], store, redis.store, spoilt || spoils)
    {
      hide SlotFair, ProgOf, Key, Shown, Exactly, Turned, Prepped, WorldOk, Stocked, PoolKeys, Shelf, Trim, RanSlots,
        Worse;
      SlotFairAt(w, c, from, slots, i, bad);
      if alone {
        SheetAt(w, c, from, prep.runnable, boxes, docker.files, keys, shown, i);
      }
      var x;
      ghost var ran := docker.past.ran;
      x, spoils := Turn(w, c, from + i, slots[i], boxes[i], containers, raw, prep, keys[i], shown[i], alone, bad, home);
      next := slots[i := x];
      RanMore(before, ran, from, boxes, slots, i, x);
      OneMoved(w, c, from, slots, i, x, bad, Worse(bad, c, spoils));
      ExactlyTurned(keys, slots, i, x, boxes, raw, prep.runnable, shown, store, old(redis.store), redis.store, spoilt,
                    spoils);
    }

    /** The requests of a chunk run all at once: whichever can move moves next, and others act in between. */
    method RunSlots(w: World, c: Call, from: nat, boxes: seq<nat>, containers: seq<nat>, ghost raw: set<nat>,
            prep: Prepared, ghost alone: bool, ghost bad: set<Prog>, ghost home: map<nat, string>,
            ghost keys: seq<string>, ghost shown: seq<Option<Visible>>)
      returns (slots: seq<Slot>, ghost spoilt: bool)
      requires WorldOk(w) && Fit(w, bad, home, KeyOf(ProgOf(c)), containers)
      requires boxes != [] && forall x :: x in boxes ==> x in containers
      requires |keys| == |boxes| == |shown| && forall x :: x in boxes ==> x in docker.files
      requires alone ==> Sheet(w, c, from, prep.runnable, boxes, docker.files, keys, shown)
      requires OfPair(ProgOf(c)) && KnowsBuild(w, ProgOf(c), prep.runnable, prep.stderr) && prep.stderr == ""
      requires Prepped(w, ProgOf(c), prep, containers, raw, docker.files) && from + |boxes| <= Count(c)
      modifies `permits, `away, pool, docker`files, docker`past, redis
      ensures |slots| == |boxes| && AllFinished(slots) && SlotsFair(w, c, from, slots, Worse(bad, c, spoilt))
      ensures Fit(w, Worse(bad, c, spoilt), home, KeyOf(ProgOf(c)), containers) && (spoilt ==> raw != {})
      ensures SinceLoaded(old(docker.past), docker.past) && SinceAsked(old(redis.past), redis.past)
      ensures RanSince(old(docker.past).ran, docker.past.ran, from, boxes)
      ensures Broken in slots ==>
        docker.past.failures > old(docker.past).failures || SomeRefused(c, from, from + |boxes|, prep)
      ensures alone ==> unchanged(`permits) && unchanged(pool) && docker.files == old(docker.files)
      ensures alone && old(HasArtifact(w, ProgOf(c))) ==> HasArtifact(w, ProgOf(c))
      ensures alone && redis.past.failures == old(redis.past).failures ==>
        Exactly(keys, slots, boxes, raw, prep.runnable, shown[0], old(redis.store), redis.store, spoilt)
    {
      hide Exactly, Sheet, SlotsFair, Prepped, KnowsBuild, Worse, PoolKeys, Shelf, Trim, WorldOk, RanSince, StoreGood;
      slots, spoilt := seq(|boxes|, _ => Idle), false;
      Unspoilt(w, c, from, |boxes|, bad);
      RanStarts(docker.past.ran, from, boxes);
      ExactlyStarts(keys, boxes, raw, prep.runnable, shown[0], redis.store);
      while Unfinished(slots)
        invariant |slots| == |boxes| && SlotsFair(w, c, from, slots, Worse(bad, c, spoilt))
        invariant Fit(w, Worse(bad, c, spoilt), home, KeyOf(ProgOf(c)), containers) && (spoilt ==> raw != {})
        invariant forall x :: x in containers ==> x in docker.files && docker.files[x] == old(docker.files)[x]
        invariant SinceLoaded(old(docker.past), docker.past) && SinceAsked(old(redis.past), redis.past)
        invariant RanSlots(old(docker.past).ran, docker.past.ran, from, boxes, slots)
        invariant Broken in slots ==>
          docker.past.failures > old(docker.past).failures || SomeRefused(c, from, from + |boxes|, prep)
        invariant alone ==> unchanged(`permits) && unchanged(pool) && docker.files == old(docker.files)
        invariant alone && old(HasArtifact(w, ProgOf(c))) ==> HasArtifact(w, ProgOf(c))
        invariant alone && redis.past.failures == old(redis.past).failures ==>
          Exactly(keys, slots, boxes, raw, prep.runnable, shown[0], old(redis.store), redis.store, spoilt)
        decreases Progress.SlotsWork(slots)
      {
        PreppedStays(w, ProgOf(c), prep, containers, raw, old(docker.files), docker.files);
        var i :| 0 <= i < |slots| && !Finished(slots[i]);
        assert boxes[i] in boxes;
        ghost var spoils;
        slots, spoils := Move(w, c, from, slots, i, boxes, containers, raw, prep, alone, Worse(bad, c, spoilt), home,
          old(docker.past).ran, keys, shown, old(redis.store), spoilt);
        WorseTwice(bad, c, spoilt, spoils);
        spoilt := spoilt || spoils;
      }
    }

    /**
     * One chunk: request `from` + i runs, if its result is not in the cache, once and on
     * `containers[i % containers.len()]`.
     */
    method RunChunk(w: World, c: Call, from: nat, count: nat, containers: seq<nat>, ghost raw: set<nat>,
            prep: Prepared, ghost alone: bool, ghost bad: set<Prog>, ghost home: map<nat, string>,
            ghost keys: seq<string>, ghost shown: seq<Option<Visible>>)
      returns (r: Option<seq<Visible>>, ghost spoilt: bool)
      requires WorldOk(w) && Fit(w, bad, home, KeyOf(ProgOf(c)), containers) && containers != []
      requires OfPair(ProgOf(c)) && KnowsBuild(w, ProgOf(c), prep.runnable, prep.stderr) && prep.stderr == ""
      requires Prepped(w, ProgOf(c), prep, containers, raw, docker.files) && 0 < count && from + count <= Count(c)
      requires |keys| == |shown| == count && forall x :: x in containers ==> x in docker.files
      requires alone ==> Sheet(w, c, from, prep.runnable, Used(containers, count), docker.files, keys, shown)
      modifies `permits, `away, pool, docker`files, docker`past, redis
      ensures Fit(w, Worse(bad, c, spoilt), home, KeyOf(ProgOf(c)), containers) && (spoilt ==> raw != {})
      ensures SinceLoaded(old(docker.past), docker.past) && SinceAsked(old(redis.past), redis.past)
      ensures RanSince(old(docker.past).ran, docker.past.ran, from, Used(containers, count))
      ensures r.None? ==> docker.past.failures > old(docker.past).failures || SomeRefused(c, from, from + count, prep)
      ensures r.Some? ==> |r.value| == count
      ensures r.Some? && Clean(w, Worse(bad, c, spoilt), ProgOf(c)) ==>
        forall i :: 0 <= i < count ==> r.value[i] == Want(w, c, from + i)
      ensures alone ==> unchanged(`permits) && unchanged(pool)
      ensures alone && old(HasArtifact(w, ProgOf(c))) ==> HasArtifact(w, ProgOf(c))
      ensures alone && redis.past.failures == old(redis.past).failures ==>
        ChunkExact(keys, Used(containers, count), raw, prep.runnable, shown[0], old(redis.store), r, spoilt)
    {
      hide Exactly, ChunkExact, Sheet, SlotsFair, Prepped, KnowsBuild, Worse, PoolKeys, Shelf, Trim, WorldOk, RanSince;
      var boxes, slots := Used(containers, count), [];
      slots, spoilt := RunSlots(w, c, from, boxes, containers, raw, prep, alone, bad, home, keys, shown);
      r := if Broken in slots then None else Some(ResultsOf(slots));
      if r.Some? && Clean(w, Worse(bad, c, spoilt), ProgOf(c)) {
        ChunkRight(w, c, from, slots, Worse(bad, c, spoilt));
      }
      if alone && redis.past.failures == old(redis.past).failures {
        ExactlyEnds(keys, slots, boxes, raw, prep.runnable, shown[0], old(redis.store), redis.store, r, spoilt);
      }
    }

    // -------------------------------------------------------------- execute_batch: the chunk loop

    /** Some results are there, and the containers in hand are ready for more, but perhaps the raw ones. */
    ghost predicate Going(w: World, c: Call, prep: Prepared, bad: set<Prog>, home: map<nat, string>,
            results: seq<Visible>, containers: seq<nat>, raw: set<nat>)
      reads this, pool, docker, redis
    {
      var p := ProgOf(c);
      && Fit(w, bad, home, KeyOf(p), containers)
      && OfPair(p) && KnowsBuild(w, p, prep.runnable, prep.stderr) && prep.stderr == ""
      && (|results| < Count(c) ==> Prepped(w, p, prep, containers, raw, docker.files))
      && 1 <= |results| <= Count(c) && (|results| == 1 ==> containers != [])
      && (Clean(w, bad, p) ==> RightSoFar(w, c, results))
    }

    /** The next chunk is run. */
    method RunMore(w: World, c: Call, width: nat, sofar: seq<Visible>, mine: seq<nat>, ghost raw: set<nat>,
            prep: Prepared, ghost alone: bool, ghost bad: set<Prog>, ghost home: map<nat, string>)
      returns (ok: bool, results: seq<Visible>, ghost spoilt: bool)
      requires WorldOk(w) && Going(w, c, prep, bad, home, sofar, mine, raw) && |sofar| < Count(c) && mine != []
      requires width > 0 && mine[0] in docker.files
      modifies `permits, `away, pool, docker`files, docker`past, redis
      ensures Fit(w, Worse(bad, c, spoilt), home, KeyOf(ProgOf(c)), mine) && (spoilt ==> raw != {})
      ensures SinceLoaded(old(docker.past), docker.past) && SinceAsked(old(redis.past), redis.past)
      ensures RanSince(old(docker.past).ran, docker.past.ran, |sofar|, Used(mine, Min(width, Count(c) - |sofar|)))
      ensures !ok ==> docker.past.failures > old(docker.past).failures || (c.kind.Batch? ==> !Doable(w, c))
      ensures ok ==> |results| == Min(|sofar| + width, Count(c)) && sofar <= results
      ensures ok && Clean(w, Worse(bad, c, spoilt), ProgOf(c)) ==> RightSoFar(w, c, results)
      ensures alone ==> unchanged(`permits) && unchanged(pool)
      ensures alone && old(HasArtifact(w, ProgOf(c))) ==> HasArtifact(w, ProgOf(c))
      ensures alone && redis.past.failures == old(redis.past).failures ==>
        MoreExact(w, c, |sofar|, width, mine, raw, prep.runnable,
                  Shown(w, c, |sofar|, prep.runnable, old(docker.files)[mine[0]]), old(redis.store),
                  if ok then Some(results) else None, spoilt)
    {
      hide KeysFrom, ShownFrom, Used, PickFor, Key, Shown, PoolKeys, Shelf, Trim, RanSince, MoreExact, ChunkExact;
      var count := Min(width, Count(c) - |sofar|);
      ghost var boxes := Used(mine, count);
      assert forall x :: x in mine ==> x in docker.files;
      SheetOf(w, c, |sofar|, prep.runnable, boxes, docker.files);
      ghost var keys := KeysFrom(w, c, |sofar|, count);
      ghost var shown := ShownFrom(w, c, |sofar|, prep.runnable, boxes, docker.files);
      SheetAt(w, c, |sofar|, prep.runnable, boxes, docker.files, keys, shown, 0);
      UsedFirst(mine, count);
      var chunk;
      chunk, spoilt := RunChunk(w, c, |sofar|, count, mine, raw, prep, alone, bad, home, keys, shown);
      ChunkDone(w, c, prep, sofar, count, chunk, Worse(bad, c, spoilt));
      MoreIsExact(w, c, sofar, count, width, mine, raw, prep.runnable, shown[0], old(redis.store), chunk, spoilt);
      ok, results := chunk.Some?, if chunk.Some? then sofar + chunk.value else sofar;
    }

    /** Between two chunks all containers are handed back and up to max_parallel taken and loaded again. */
    method Renew(w: World, c: Call, m: nat, mine: seq<nat>, prep: Prepared, ghost alone: bool, ghost bad: set<Prog>,
            ghost home: map<nat, string>, ghost entry: Pool, ghost stack: seq<nat>, ghost j: nat)
      returns (ok: bool, containers: seq<nat>, ghost raw: set<nat>)
      requires WorldOk(w) && Fit(w, bad, home, KeyOf(ProgOf(c)), mine) && OfPair(ProgOf(c))
      requires KnowsBuild(w, ProgOf(c), prep.runnable, prep.stderr)
      requires alone ==> Settled(entry, pool.pool, KeyOf(ProgOf(c)), stack, m, j, mine)
      modifies `permits, `away, pool, docker`files, docker`past, redis
      ensures Fit(w, bad, home, KeyOf(ProgOf(c)), containers) && (!ok ==> containers == [])
      ensures ok ==> Prepped(w, ProgOf(c), prep, containers, raw, docker.files) && |containers| <= m
      ensures ok ==> raw == {} || Excused(ProgOf(c), old(docker.past), docker.past, old(redis.past), redis.past)
      ensures alone && ok ==>
        if m == 0 then containers == [] && pool.pool == entry
        else Settled(entry, pool.pool, KeyOf(ProgOf(c)), stack, m, j + 1, containers)
      ensures alone ==> SameBut(entry, pool.pool, KeyOf(ProgOf(c))) && permits == old(permits)
      ensures SinceLoaded(old(docker.past), docker.past) && SinceAsked(old(redis.past), redis.past)
      ensures docker.past.ran == old(docker.past).ran
      ensures !ok ==> docker.past.failures > old(docker.past).failures
      ensures alone && !ok ==> KeyOf(ProgOf(c)) in pool.pool && |pool.pool[KeyOf(ProgOf(c))]| < |stack|
      ensures alone ==> redis.store == old(redis.store)
      ensures alone && Flawless(old(docker.past), docker.past, old(redis.past), redis.past) ==>
        raw == {} || (Compiled(ProgOf(c).lang) && !HasArtifact(w, ProgOf(c)))
    {
      hide PoolKeys, Shelf, Trim, WorldOk;
      Drain(ProgOf(c), mine, home);
      ghost var pooled := pool.pool;
      if alone {
        HandsTurn(stack, Share(m, |stack|), j);
        if m == 0 {
          OneHandBack(entry, old(pool.pool), pooled, KeyOf(ProgOf(c)), stack, j, mine);
        }
      }
      ok, containers, raw := Fill(w, c, m, [], {}, prep, alone, bad, home);
      if alone && ok && m == 0 {
        SameStack(pooled, pool.pool, KeyOf(ProgOf(c)));
      }
    }

    /** That, if more is to come. */
    method RenewIf(w: World, c: Call, m: nat, more: bool, mine: seq<nat>, ghost raw: set<nat>, prep: Prepared,
            ghost alone: bool, ghost bad: set<Prog>, ghost home: map<nat, string>, ghost entry: Pool,
            ghost stack: seq<nat>, ghost j: nat)
      returns (ok: bool, containers: seq<nat>, ghost raw': set<nat>)
      requires WorldOk(w) && Fit(w, bad, home, KeyOf(ProgOf(c)), mine) && OfPair(ProgOf(c))
      requires KnowsBuild(w, ProgOf(c), prep.runnable, prep.stderr)
      requires alone ==> Settled(entry, pool.pool, KeyOf(ProgOf(c)), stack, m, j, mine)
      modifies `permits, `away, pool, docker`files, docker`past, redis
      ensures Fit(w, bad, home, KeyOf(ProgOf(c)), containers) && (!ok ==> containers == [])
      ensures ok && more ==> Prepped(w, ProgOf(c), prep, containers, raw', docker.files)
      ensures ok && more ==>
        raw' == {} || Excused(ProgOf(c), old(docker.past), docker.past, old(redis.past), redis.past)
      ensures !more ==> ok && containers == mine && raw' == raw && pool.pool == old(pool.pool)
      ensures alone && ok && more ==>
        if m == 0 then containers == [] && pool.pool == entry
        else Settled(entry, pool.pool, KeyOf(ProgOf(c)), stack, m, j + 1, containers)
      ensures alone && more ==> SameBut(entry, pool.pool, KeyOf(ProgOf(c)))
      ensures alone ==> permits == old(permits) && redis.store == old(redis.store)
      ensures SinceLoaded(old(docker.past), docker.past) && SinceAsked(old(redis.past), redis.past)
      ensures docker.past.ran == old(docker.past).ran
      ensures !ok ==> docker.past.failures > old(docker.past).failures
      ensures alone && !ok ==> KeyOf(ProgOf(c)) in pool.pool && |pool.pool[KeyOf(ProgOf(c))]| < |stack|
      ensures alone && more && Flawless(old(docker.past), docker.past, old(redis.past), redis.past) ==>
        raw' == {} || (Compiled(ProgOf(c).lang) && !HasArtifact(w, ProgOf(c)))
    {
      hide Settled;
      if more {
        ok, containers, raw' := Renew(w, c, m, mine, prep, alone, bad, home, entry, stack, j);
      } else {
        ok, containers, raw' := true, mine, raw;
      }
    }

    /** One chunk is run, and, if more is to come, the containers are renewed. */
    method Round(w: World, c: Call, m: nat, width: nat, sofar: seq<Visible>, mine: seq<nat>, ghost raw: set<nat>,
            prep: Prepared, ghost alone: bool, ghost bad: set<Prog>, ghost home: map<nat, string>,
            ghost entry: Pool, ghost stack: seq<nat>, ghost past: seq<seq<nat>>)
      returns (ok: bool, results: seq<Visible>, containers: seq<nat>, ghost raw': set<nat>, ghost spoilt: bool,
               ghost log: seq<seq<nat>>)
      requires WorldOk(w) && Going(w, c, prep, bad, home, sofar, mine, raw) && |sofar| < Count(c) && mine != []
      requires width > 0 && mine[0] in docker.files
      requires alone ==> UndisturbedSoFar(c, m, |sofar|, past, stack, mine, entry, pool.pool) && width == |mine|
      modifies `permits, `away, pool, docker`files, docker`past, redis
      ensures ok ==> Going(w, c, prep, Worse(bad, c, spoilt), home, results, containers, raw')
      ensures !ok ==> Fit(w, Worse(bad, c, spoilt), home, KeyOf(ProgOf(c)), [])
      ensures spoilt ==> raw != {}
      ensures ok ==>
        raw' == raw || raw' == {} || Excused(ProgOf(c), old(docker.past), docker.past, old(redis.past), redis.past)
      ensures ok ==> |results| == Min(|sofar| + width, Count(c)) && sofar <= results
      ensures SinceLoaded(old(docker.past), docker.past) && SinceAsked(old(redis.past), redis.past)
      ensures !ok ==> docker.past.failures > old(docker.past).failures || (c.kind.Batch? ==> !Doable(w, c))
      ensures log == past + [Used(mine, Min(width, Count(c) - |sofar|))]
      ensures RanSince(old(docker.past).ran, docker.past.ran, |sofar|, log[|past|])
      ensures alone ==> permits == old(permits) && SameBut(entry, pool.pool, KeyOf(ProgOf(c)))
      ensures alone && !ok ==> KeyOf(ProgOf(c)) in pool.pool && |pool.pool[KeyOf(ProgOf(c))]| < |stack|
      ensures alone ==> Log(log, stack, Share(m, |stack|), |sofar| + width < Count(c))
      ensures alone && ok ==> UndisturbedSoFar(c, m, |results|, log, stack, containers, entry, pool.pool)
      ensures alone && old(HasArtifact(w, ProgOf(c))) ==> HasArtifact(w, ProgOf(c))
      ensures alone && ok && Flawless(old(docker.past), docker.past, old(redis.past), redis.past) ==>
        |results| == Count(c) || raw' == {} || (Compiled(ProgOf(c).lang) && !HasArtifact(w, ProgOf(c)))
      ensures alone && redis.past.failures == old(redis.past).failures ==>
        MoreExact(w, c, |sofar|, width, mine, raw, prep.runnable,
                  Shown(w, c, |sofar|, prep.runnable, old(docker.files)[mine[0]]), old(redis.store),
                  if ok then Some(results) else None, spoilt)
    {
      hide MoreExact, Log, UndisturbedSoFar, Settled, Share, Shown, Used, Shelf, PoolKeys, Trim, Stocked, RanSince,
        Worse, OneDocument, RightSoFar, Excused, ProgOf, Whole, StoreGood, InOrder, Flawless;
      RoundStarts(c, m, |sofar|, past, stack, mine, entry, pool.pool, width);
      SettledShort(entry, pool.pool, KeyOf(ProgOf(c)), stack, m, |past|, mine);
      ghost var before := pool.pool;
      log := past + [Used(mine, Min(width, Count(c) - |sofar|))];
      ok, results, spoilt := RunMore(w, c, width, sofar, mine, raw, prep, alone, bad, home);
      ghost var between, between' := docker.past, redis.past;
      if !ok {
        OrderDrop(w, Worse(bad, c, spoilt), home, KeyOf(ProgOf(c)), mine, KeyOf(ProgOf(c)), redis.store, docker.files,
                  pool.pool);
        containers, raw' := [], {};
        return;
      }
      MoreNone(w, c, |sofar|, width, mine, raw, prep.runnable,
               Shown(w, c, |sofar|, prep.runnable, old(docker.files)[mine[0]]), old(redis.store), Some(results),
               spoilt);
      ok, containers, raw' := RenewIf(w, c, m, |results| < Count(c), mine, raw, prep, alone, Worse(bad, c, spoilt),
        home, entry, stack, |past|);
      PastOn(ProgOf(c), old(docker.past), between, docker.past, old(redis.past), between', redis.past);
      if ok {
        RoundEnds(c, m, |sofar|, past, stack, mine, entry, before, width, |results|, log, containers, pool.pool);
      }
    }

    /** All results are there: the containers are handed back. */
    method Conclude(w: World, c: Call, prep: Prepared, ghost bad: set<Prog>, ghost home: map<nat, string>,
            results: seq<Visible>, mine: seq<nat>, ghost raw: set<nat>)
      requires WorldOk(w) && Going(w, c, prep, bad, home, results, mine, raw) && c.kind.Batch? && |results| == Count(c)
      modifies pool
      ensures Fit(w, bad, home, KeyOf(ProgOf(c)), [])
      ensures Restacked(old(pool.pool), pool.pool, KeyOf(ProgOf(c)), old(pool.pool)[KeyOf(ProgOf(c))] + mine)
      ensures Clean(w, bad, ProgOf(c)) ==> results == Expected(w, c)
    {
      Drain(ProgOf(c), mine, home);
      if Clean(w, bad, ProgOf(c)) {
        AllIsExpected(w, c, prep.runnable, prep.stderr, results);
      }
    }

    /** One turn of the loop; `front` are the containers of the first. */
    method Lap(w: World, c: Call, m: nat, width: nat, sofar: seq<Visible>, mine: seq<nat>, ghost raw: set<nat>,
            prep: Prepared, ghost alone: bool, ghost bad: set<Prog>, ghost home: map<nat, string>,
            ghost entry: Pool, ghost stack: seq<nat>, ghost past: seq<seq<nat>>, ghost front: seq<nat>,
            ghost raw0: set<nat>, ghost second: Option<Visible>, ghost store: map<string, Entry>, ghost was: bool)
      returns (ok: bool, results: seq<Visible>, containers: seq<nat>, ghost raw': set<nat>, ghost spoils: bool,
               ghost log: seq<seq<nat>>)
      requires WorldOk(w) && Going(w, c, prep, bad, home, sofar, mine, raw) && |sofar| < Count(c) && mine != []
      requires width == |front| > 0 && c.kind.Batch?
      requires alone ==>
        UndisturbedSoFar(c, m, |sofar|, past, stack, mine, entry, pool.pool) && width == Share(m, |stack|)
      requires alone && |sofar| == 1 ==> mine == front && redis.store == store && mine[0] in docker.files
      requires alone && |sofar| == 1 ==> second == Shown(w, c, 1, prep.runnable, docker.files[mine[0]])
      modifies `permits, `away, pool, docker`files, docker`past, redis
      ensures ok ==> Going(w, c, prep, Worse(bad, c, spoils), home, results, containers, raw')
      ensures !ok ==> Fit(w, Worse(bad, c, spoils), home, KeyOf(ProgOf(c)), [])
      ensures spoils ==> raw != {}
      ensures ok ==>
        raw' == raw || raw' == {} || Excused(ProgOf(c), old(docker.past), docker.past, old(redis.past), redis.past)
      ensures ok ==> |sofar| < |results| && results[0] == sofar[0] && Total(log) - |results| == Total(past) - |sofar|
      ensures SinceLoaded(old(docker.past), docker.past) && SinceAsked(old(redis.past), redis.past)
      ensures !ok ==> docker.past.failures > old(docker.past).failures || !Doable(w, c)
      ensures |log| == |past| + 1 && log == past + [log[|past|]]
      ensures RanSince(old(docker.past).ran, docker.past.ran, |sofar|, log[|past|])
      ensures alone ==> permits == old(permits)
      ensures alone && !ok ==> LoopUndisturbed(c, m, Err, log, stack, entry, pool.pool)
      ensures alone && ok ==> UndisturbedSoFar(c, m, |results|, log, stack, containers, entry, pool.pool)
      ensures alone && old(HasArtifact(w, ProgOf(c))) ==> HasArtifact(w, ProgOf(c))
      ensures alone && ok && Flawless(old(docker.past), docker.past, old(redis.past), redis.past) ==>
        (prep.runnable && Compiled(ProgOf(c).lang) ==> old(HasArtifact(w, ProgOf(c)))) ==>
          LoopExact(w, c, front, raw0, raw, prep.runnable, second, store, sofar, was) ==>
            LoopExact(w, c, front, raw0, raw', prep.runnable, second, store, results, was || spoils)
    {
      hide LoopExact, MoreExact, UndisturbedSoFar, LoopUndisturbed, Settled, Log, Shown, Used, Share, Key, RanSince,
        Worse, PoolKeys, Shelf, Trim, WorldOk;
      assert mine[0] in mine;
      RoundsWidth(c, m, |sofar|, past, stack, mine, entry, pool.pool);
      ghost var other, start := Shown(w, c, |sofar|, prep.runnable, docker.files[mine[0]]), redis.store;
      ok, results, containers, raw', spoils, log := Round(w, c, m, width, sofar, mine, raw, prep, alone, bad, home,
        entry, stack, past);
      TotalMore(past, log[|past|]);
      if alone && !ok {
        RoundsErr(c, m, log, stack, entry, pool.pool, |sofar| + width < Count(c));
      }
      if ok {
        LoopMore(w, c, front, raw0, raw, raw', prep.runnable, second, other, store, start, sofar, results, was, spoils,
                 mine);
      }
    }

    /** The requests after the first, in chunks, until all have a result or the batch has to stop. */
    method Laps(w: World, c: Call, m: nat, first: Visible, mine: seq<nat>, ghost raw: set<nat>, prep: Prepared,
            ghost alone: bool, ghost bad: set<Prog>, ghost home: map<nat, string>, ghost entry: Pool,
            ghost stack: seq<nat>, ghost second: Option<Visible>)
      returns (stop: Option<Outcome>, results: seq<Visible>, containers: seq<nat>, ghost now: set<nat>,
               ghost spoilt: bool, ghost log: seq<seq<nat>>)
      requires WorldOk(w) && Going(w, c, prep, bad, home, [first], mine, raw) && c.kind.Batch?
      requires mine != [] && mine[0] in docker.files
      requires alone ==> Settled(entry, pool.pool, KeyOf(ProgOf(c)), stack, m, 0, mine)
      requires Count(c) >= 2 ==> second == Shown(w, c, 1, prep.runnable, docker.files[mine[0]])
      modifies `permits, `away, pool, docker`files, docker`past, redis
      ensures stop != Some(Err) ==> 1 <= |results| <= Count(c) && results[0] == first
      ensures spoilt ==> raw != {} || Excused(ProgOf(c), old(docker.past), docker.past, old(redis.past), redis.past)
      ensures SinceLoaded(old(docker.past), docker.past) && SinceAsked(old(redis.past), redis.past)
      ensures RanSince(old(docker.past).ran, docker.past.ran, 1, Flat(log))
      ensures stop.None? ==> |results| == Count(c) && Total(log) == |c.rest|
      ensures stop.None? ==> Going(w, c, prep, Worse(bad, c, spoilt), home, results, containers, now)
      ensures stop.None? && alone ==> UndisturbedSoFar(c, m, Count(c), log, stack, containers, entry, pool.pool)
      ensures stop.Some? ==> Fit(w, Worse(bad, c, spoilt), home, KeyOf(ProgOf(c)), []) && !stop.value.Ok?
      ensures stop == Some(Err) ==> docker.past.failures > old(docker.past).failures || !Doable(w, c)
      ensures stop == Some(Err) ==> log != []
      ensures stop == Some(Fault) ==> Count(c) >= 3
      ensures stop.Some? && alone ==> LoopUndisturbed(c, m, stop.value, log, stack, entry, pool.pool)
      ensures alone ==> permits == old(permits)
      ensures alone && Flawless(old(docker.past), docker.past, old(redis.past), redis.past) ==>
        (prep.runnable && Compiled(ProgOf(c).lang) ==> old(HasArtifact(w, ProgOf(c)))) && stop != Some(Err) ==>
          LoopExact(w, c, mine, raw, now, prep.runnable, second, old(redis.store), results, spoilt)
    {
      hide LoopExact, MoreExact, UndisturbedSoFar, LoopUndisturbed, Settled, Log, Shown, Used, Share, Key, RanSince,
        Worse, PoolKeys, Shelf, Trim, WorldOk, Flat, Total, Stocked, InOrder;
      var p := ProgOf(c);
      results, containers, now := [first], mine, raw;
      ghost var steady := prep.runnable && Compiled(p.lang) ==> HasArtifact(w, p);
      spoilt, log := false, [];
      Unspoilt(w, c, 0, 0, bad);
      NothingRan(docker.past.ran);
      RoundsStart(c, m, stack, mine, entry, pool.pool);
      LoopStarts(w, c, mine, raw, prep.runnable, second, redis.store, first);
      while |results| < Count(c)
        invariant Going(w, c, prep, Worse(bad, c, spoilt), home, results, containers, now)
        invariant now != {} || spoilt ==>
          raw != {} || Excused(p, old(docker.past), docker.past, old(redis.past), redis.past)
        invariant Total(log) == |results| - 1 && results[0] == first
        invariant SinceLoaded(old(docker.past), docker.past) && SinceAsked(old(redis.past), redis.past)
        invariant RanSince(old(docker.past).ran, docker.past.ran, 1, Flat(log))
        invariant alone && old(HasArtifact(w, p)) ==> HasArtifact(w, p)
        invariant alone ==> permits == old(permits)
        invariant alone ==> UndisturbedSoFar(c, m, |results|, log, stack, containers, entry, pool.pool)
        invariant alone && |results| == 1 ==>
          containers == mine && docker.files == old(docker.files) && redis.store == old(redis.store)
        invariant alone && Flawless(old(docker.past), docker.past, old(redis.past), redis.past) ==>
          steady ==> LoopExact(w, c, mine, raw, now, prep.runnable, second, old(redis.store), results, spoilt)
      {
        if containers == [] {
          assert |results| > 1;
          RoundsFault(c, m, |results|, log, stack, entry, pool.pool);
          stop := Some(Fault);
          return;
        }
        var ok;
        ghost var spoils, past, between, between' := false, log, docker.past, redis.past;
        ok, results, containers, now, spoils, log := Lap(w, c, m, |mine|, results, containers, now, prep, alone,
          Worse(bad, c, spoilt), home, entry, stack, log, mine, raw, second, old(redis.store), spoilt);
        PastOn(p, old(docker.past), between, docker.past, old(redis.past), between', redis.past);
        FlatMore(past, log[|past|]);
        RanJoin(old(docker.past).ran, between.ran, docker.past.ran, 1, Flat(past), log[|past|]);
        WorseTwice(bad, c, spoilt, spoils);
        spoilt := spoilt || spoils;
        if !ok {
          stop := Some(Err);
          return;
        }
      }
      stop := None;
    }

    /** The requests after the first; all containers are handed back at the end. */
    method Chunks(w: World, c: Call, m: nat, first: Visible, mine: seq<nat>, ghost raw: set<nat>, prep: Prepared,
            ghost alone: bool, ghost bad: set<Prog>, ghost home: map<nat, string>, ghost entry: Pool,
            ghost stack: seq<nat>, ghost second: Option<Visible>)
      returns (out: Outcome, ghost spoilt: bool, ghost log: seq<seq<nat>>)
      requires WorldOk(w) && Going(w, c, prep, bad, home, [first], mine, raw) && c.kind.Batch?
      requires mine != [] && mine[0] in docker.files
      requires alone ==> Settled(entry, pool.pool, KeyOf(ProgOf(c)), stack, m, 0, mine)
      requires Count(c) >= 2 ==> second == Shown(w, c, 1, prep.runnable, docker.files[mine[0]])
      modifies `permits, `away, pool, docker`files, docker`past, redis
      ensures Fit(w, Worse(bad, c, spoilt), home, KeyOf(ProgOf(c)), [])
      ensures spoilt ==> raw != {} || Excused(ProgOf(c), old(docker.past), docker.past, old(redis.past), redis.past)
      ensures out.Ok? ==> |out.results| == Count(c) && out.results[0] == first
      ensures out.Ok? && Clean(w, Worse(bad, c, spoilt), ProgOf(c)) ==> out.results == Expected(w, c)
      ensures SinceLoaded(old(docker.past), docker.past) && SinceAsked(old(redis.past), redis.past)
      ensures RanSince(old(docker.past).ran, docker.past.ran, 1, Flat(log))
      ensures out.Err? ==> docker.past.failures > old(docker.past).failures || !Doable(w, c)
      ensures out.Err? ==> log != []
      ensures out.Fault? ==> Count(c) >= 3
      ensures alone ==> permits == old(permits)
      ensures alone ==> LoopUndisturbed(c, m, out, log, stack, entry, pool.pool)
      ensures alone && Flawless(old(docker.past), docker.past, old(redis.past), redis.past) ==>
        (prep.runnable && Compiled(ProgOf(c).lang) ==> old(HasArtifact(w, ProgOf(c)))) && !out.Err? ==>
          raw <= {mine[0]} || !prep.runnable ==>
            LoopCame(w, c, mine[0], raw, prep.runnable, second, old(redis.store), out, spoilt)
    {
      hide LoopExact, LoopCame, UndisturbedSoFar, LoopUndisturbed, Settled, Shown, Share, Key, PoolKeys, Shelf, Trim,
        RanSince, Worse;
      var stop, results, containers;
      ghost var now;
      stop, results, containers, now, spoilt, log := Laps(w, c, m, first, mine, raw, prep, alone, bad, home, entry,
        stack, second);
      if stop.Some? {
        out := stop.value;
      } else {
        ghost var pooled := pool.pool;
        Conclude(w, c, prep, Worse(bad, c, spoilt), home, results, containers, now);
        out := Ok(results);
        RoundsEnd(c, m, results, log, stack, containers, entry, pooled, pool.pool);
      }
      if !out.Err? {
        LoopEnds(w, c, mine, raw, now, prep.runnable, second, old(redis.store), results, spoilt, out);
      }
    }

    // -------------------------------------------------------------- execute_batch

    /** The permits are read, and more containers taken and loaded. */
    method Extend(w: World, c: Call, box: nat, ghost raw: set<nat>, prep: Prepared, ghost alone: bool,
            ghost bad: set<Prog>, ghost home: map<nat, string>, ghost entry: Pool)
      returns (ok: bool, m: nat, containers: seq<nat>, ghost raw': set<nat>)
      requires WorldOk(w) && Fit(w, bad, home, KeyOf(ProgOf(c)), [box]) && OfPair(ProgOf(c))
      requires KnowsBuild(w, ProgOf(c), prep.runnable, prep.stderr)
      requires Prepped(w, ProgOf(c), prep, [box], raw, docker.files) && box in docker.files
      requires alone ==> Take(entry, KeyOf(ProgOf(c))) == (pool.pool, Some(box))
      modifies `permits, `away, pool, docker`files, docker`past, redis
      ensures Fit(w, bad, home, KeyOf(ProgOf(c)), containers)
      ensures if ok then containers != [] && containers[0] == box && box in docker.files else containers == []
      ensures ok ==> Prepped(w, ProgOf(c), prep, containers, raw', docker.files)
      ensures ok ==> |containers| <= Max(1, m) <= Max(1, |c.rest|)
      ensures ok ==>
        raw' == raw || Excused(ProgOf(c), old(docker.past), docker.past, old(redis.past), redis.past)
      ensures alone ==> permits == old(permits) && SameBut(entry, pool.pool, KeyOf(ProgOf(c)))
      ensures alone ==> m == Min(permits, |c.rest|) && redis.store == old(redis.store)
      ensures alone && ok ==> docker.files[box] == old(docker.files)[box]
      ensures alone && ok ==> Settled(entry, pool.pool, KeyOf(ProgOf(c)), entry[KeyOf(ProgOf(c))], m, 0, containers)
      ensures SinceLoaded(old(docker.past), docker.past) && SinceAsked(old(redis.past), redis.past)
      ensures docker.past.ran == old(docker.past).ran
      ensures !ok ==> docker.past.hard > old(docker.past).hard
      ensures alone && !ok ==> Short(entry, pool.pool, KeyOf(ProgOf(c)))
      ensures alone && Flawless(old(docker.past), docker.past, old(redis.past), redis.past) ==>
        raw' == raw || (Compiled(ProgOf(c).lang) && !HasArtifact(w, ProgOf(c)))
    {
      hide PoolKeys, Shelf, Trim;
      var p := ProgOf(c);
      assert box in [box];
      Others(w, alone, bad, home, KeyOf(p), [box]);
      PreppedStays(w, p, prep, [box], raw, old(docker.files), docker.files);
      m := Min(permits, |c.rest|);
      if alone {
        TakenShort(entry, KeyOf(p), box);
      }
      ghost var before := pool.pool;
      ok, containers, raw' := Fill(w, c, if m > 0 then m - 1 else 0, [box], raw, prep, alone, bad, home);
      if ok {
        assert containers[0] == [box][0] && containers[0] in containers;
      }
      if alone && ok {
        FillSettles(entry, before, pool.pool, KeyOf(p), m, box, containers);
      }
    }

    /** The chunks of a batch that has its containers. */
    method Continue(w: World, c: Call, m: nat, first: Visible, containers: seq<nat>, ghost raw: set<nat>,
            prep: Prepared, ghost alone: bool, ghost bad: set<Prog>, ghost home: map<nat, string>,
            ghost entry: Pool, ghost second: Option<Visible>)
      returns (out: Outcome, ghost spoilt: bool, ghost log: seq<seq<nat>>)
      requires WorldOk(w) && Going(w, c, prep, bad, home, [first], containers, raw) && c.kind.Batch?
      requires containers != [] && containers[0] in docker.files && first.exitCode == 0
      requires alone ==> KeyOf(ProgOf(c)) in entry && entry[KeyOf(ProgOf(c))] != [] && m == Min(permits, |c.rest|)
      requires alone ==> Settled(entry, pool.pool, KeyOf(ProgOf(c)), entry[KeyOf(ProgOf(c))], m, 0, containers)
      requires Count(c) >= 2 ==> second == Shown(w, c, 1, prep.runnable, docker.files[containers[0]])
      modifies `permits, `away, pool, docker`files, docker`past, redis
      ensures Fit(w, Worse(bad, c, spoilt), home, KeyOf(ProgOf(c)), [])
      ensures spoilt ==> raw != {} || Excused(ProgOf(c), old(docker.past), docker.past, old(redis.past), redis.past)
      ensures out.Ok? ==> |out.results| == Count(c) && out.results[0] == first
      ensures out.Ok? && Clean(w, Worse(bad, c, spoilt), ProgOf(c)) ==> out.results == Expected(w, c)
      ensures SinceLoaded(old(docker.past), docker.past) && SinceAsked(old(redis.past), redis.past)
      ensures RanSince(old(docker.past).ran, docker.past.ran, 1, Flat(log))
      ensures out.Err? ==> docker.past.failures > old(docker.past).failures || !Doable(w, c)
      ensures out.Err? ==> log != []
      ensures alone && out.Err? ==> Short(entry, pool.pool, KeyOf(ProgOf(c)))
      ensures out.Fault? ==> Count(c) >= 3
      ensures alone ==> permits == old(permits)
      ensures alone ==> Undisturbed(c, out, log, permits, entry, pool.pool)
      ensures alone && !out.Err? ==> (out.Fault? <==> Starves(c, permits))
      ensures alone && Flawless(old(docker.past), docker.past, old(redis.past), redis.past) ==>
        (prep.runnable && Compiled(ProgOf(c).lang) ==> old(HasArtifact(w, ProgOf(c)))) && !out.Err? ==>
          raw <= {containers[0]} || !prep.runnable ==>
            LoopCame(w, c, containers[0], raw, prep.runnable, second, old(redis.store), out, spoilt)
    {
      hide LoopCame, Settled, Shown, Share, Key, LoopUndisturbed, Undisturbed, RanSince, Worse, Flat, Prepped,
        KnowsBuild, PoolKeys, Shelf, Trim;
      ghost var stack := if alone then entry[KeyOf(ProgOf(c))] else [];
      out, spoilt, log := Chunks(w, c, m, first, containers, raw, prep, alone, bad, home, entry, stack, second);
      if alone {
        LoopIsUndisturbed(c, out, log, permits, entry, pool.pool);
      }
    }

    /** After a first request that went well: more containers, and the rest of the requests. */
    method BatchRest(w: World, c: Call, first: Visible, box: nat, ghost raw: set<nat>, prep: Prepared,
            ghost alone: bool, ghost bad: set<Prog>, ghost home: map<nat, string>, ghost entry: Pool)
      returns (out: Outcome, ghost spoilt: bool, ghost log: seq<seq<nat>>)
      requires WorldOk(w) && Going(w, c, prep, bad, home, [first], [box], raw) && c.kind.Batch?
      requires Prepped(w, ProgOf(c), prep, [box], raw, docker.files) && box in docker.files && raw <= {box}
      requires first.exitCode == 0
      requires alone ==> Take(entry, KeyOf(ProgOf(c))) == (pool.pool, Some(box))
      modifies `permits, `away, pool, docker`files, docker`past, redis
      ensures Fit(w, Worse(bad, c, spoilt), home, KeyOf(ProgOf(c)), [])
      ensures spoilt ==> raw != {} || Excused(ProgOf(c), old(docker.past), docker.past, old(redis.past), redis.past)
      ensures out.Ok? ==> |out.results| == Count(c) && out.results[0] == first
      ensures out.Ok? && Clean(w, Worse(bad, c, spoilt), ProgOf(c)) ==> out.results == Expected(w, c)
      ensures SinceLoaded(old(docker.past), docker.past) && SinceAsked(old(redis.past), redis.past)
      ensures RanSince(old(docker.past).ran, docker.past.ran, 1, Flat(log))
      ensures out.Err? ==> docker.past.failures > old(docker.past).failures || !Doable(w, c)
      ensures out.Err? ==> log != [] || docker.past.hard > old(docker.past).hard
      ensures alone && out.Err? ==> Short(entry, pool.pool, KeyOf(ProgOf(c)))
      ensures out.Fault? ==> Count(c) >= 3
      ensures alone ==> permits == old(permits)
      ensures alone ==> Undisturbed(c, out, log, permits, entry, pool.pool)
      ensures alone && !out.Err? ==> (out.Fault? <==> Starves(c, permits))
      ensures alone && Flawless(old(docker.past), docker.past, old(redis.past), redis.past) ==>
        (prep.runnable && Compiled(ProgOf(c).lang) ==> old(HasArtifact(w, ProgOf(c)))) && !out.Err? ==>
          LoopCame(w, c, box, raw, prep.runnable,
                   if Count(c) >= 2 then Shown(w, c, 1, prep.runnable, old(docker.files)[box]) else None,
                   old(redis.store), out, spoilt)
    {
      hide LoopCame, Settled, Shown, Share, Key, LoopUndisturbed, Undisturbed, PoolKeys, Shelf, Trim, RanSince, Worse,
        Flat, WorldOk, Stocked, RightSoFar, ArtifactKey, InOrder;
      var ok, m, containers;
      ghost var raw';
      spoilt, log := false, [];
      Unspoilt(w, c, 0, 0, bad);
      NothingRan(docker.past.ran);
      ok, m, containers, raw' := Extend(w, c, box, raw, prep, alone, bad, home, entry);
      if !ok {
        FailedEarly(c, permits, entry, pool.pool);
        return Err, spoilt, log;
      }
      ghost var second := if Count(c) >= 2 then Shown(w, c, 1, prep.runnable, docker.files[box]) else None;
      out, spoilt, log := Continue(w, c, m, first, containers, raw', prep, alone, bad, home, entry, second);
      if raw' == raw || !prep.runnable {
        CameSame(w, c, box, raw, raw', prep.runnable, second, old(redis.store), out, spoilt);
      }
    }

    /** The build and the first request of a batch, on its first container; `raw` if that is left unloaded. */
    method FirstOf(w: World, c: Call, box: nat, ghost alone: bool, ghost bad: set<Prog>, ghost home: map<nat, string>)
      returns (r: Attempt, prep: Prepared, ghost raw: bool)
      requires WorldOk(w) && Fit(w, bad, home, KeyOf(ProgOf(c)), [box]) && OfPair(ProgOf(c)) && c.kind.Batch?
      modifies `permits, `away, pool, docker`files, docker`past, redis
      ensures Fit(w, bad, home, KeyOf(ProgOf(c)), [box]) && box in docker.files
      ensures alone ==> unchanged(`permits) && unchanged(pool)
      ensures Since(old(docker.past), docker.past) && SinceAsked(old(redis.past), redis.past)
      ensures redis.past.missed == old(redis.past).missed
      ensures MayRan(old(docker.past).ran, docker.past.ran, box)
      ensures r.Success? ==> KnowsBuild(w, ProgOf(c), prep.runnable, prep.stderr)
      ensures r.Success? && Clean(w, bad, ProgOf(c)) ==>
        (prep.stderr == "" ==> r.v == Want(w, c, 0)) && !Refused(c, 0, prep)
      ensures r.Success? && !raw && prep.runnable && Whole(w, ProgOf(c)) ==> Loaded(w, ProgOf(c), docker.files[box])
      ensures raw <==> !Compiled(ProgOf(c).lang) && redis.past.found > old(redis.past).found
      ensures r.Failure? ==>
        docker.past.failures > old(docker.past).failures || UnfitBuild(w, c) || (!Doable(w, c) && c.first.stdin.None?)
      ensures r.Failure? && r.returned ==> docker.past.failures > old(docker.past).failures
      ensures r.Failure? && r.returned ==> docker.past.hard == old(docker.past).hard
      ensures r.Failure? && !r.returned && Doable(w, c) ==> docker.past.hard > old(docker.past).hard
      ensures alone && redis.past.failures == old(redis.past).failures && r.Success? ==>
        FoundBy(w, c, r.v, raw, old(redis.store), redis.store)
      ensures alone && raw && r.Success? ==>
        docker.files == old(docker.files) && redis.store == old(redis.store) &&
        ResultHit(old(redis.store), Key(w, c, 0)).Some?
      ensures alone && redis.past.failures == old(redis.past).failures && r.Success? ==>
        prep.runnable && Compiled(ProgOf(c).lang) ==> HasArtifact(w, ProgOf(c))
      ensures !Compiled(ProgOf(c).lang) ==> docker.past.built == old(docker.past).built
      ensures alone && old(HasArtifact(w, ProgOf(c))) && redis.past.failures == old(redis.past).failures ==>
        docker.past.built == old(docker.past).built
    {
      hide PoolKeys, Shelf, Trim, FreshBuild, OneDocument, InOrder;
      raw, prep := false, Prepared(true, "");
      var prepared;
      prepared := Ready(w, c, box, alone, bad, home);
      if prepared.None? {
        return Failure(false), prep, false;
      }
      prep := prepared.value;
      if Refused(c, 0, prep) {
        RefusedIsUndoable(w, c, 0, prep);
      }
      ghost var store := redis.store;
      r, raw := Answer(w, c, box, prep, alone, bad, home);
      if alone && r.Success? {
        FoundFrom(w, c, r.v, raw, old(redis.store), store, redis.store);
      }
    }

    /** The first request of a batch; if it cannot be answered the container is handed back or lost. */
    method Begin(w: World, c: Call, box: nat, ghost alone: bool, ghost bad: set<Prog>, ghost home: map<nat, string>)
      returns (first: Option<Visible>, prep: Prepared, ghost raw: bool)
      requires WorldOk(w) && Fit(w, bad, home, KeyOf(ProgOf(c)), [box]) && OfPair(ProgOf(c)) && c.kind.Batch?
      modifies `permits, `away, pool, docker`files, docker`past, redis
      ensures Fit(w, bad, home, KeyOf(ProgOf(c)), if first.Some? then [box] else [])
      ensures alone ==> unchanged(this) && SameBut(old(pool.pool), pool.pool, KeyOf(ProgOf(c)))
      ensures Since(old(docker.past), docker.past) && SinceAsked(old(redis.past), redis.past)
      ensures MayRan(old(docker.past).ran, docker.past.ran, box)
      ensures first.Some? ==> KnowsBuild(w, ProgOf(c), prep.runnable, prep.stderr) && box in docker.files
      ensures first.Some? && Clean(w, bad, ProgOf(c)) ==>
        (prep.stderr == "" ==> first.value == Want(w, c, 0)) && !Refused(c, 0, prep)
      ensures first.Some? ==> Prepped(w, ProgOf(c), prep, [box], if raw then {box} else {}, docker.files)
      ensures raw ==> !Compiled(ProgOf(c).lang) && redis.past.found > old(redis.past).found
      ensures first.None? ==>
        docker.past.failures > old(docker.past).failures || UnfitBuild(w, c) || (!Doable(w, c) && c.first.stdin.None?)
      ensures alone && (first.Some? || docker.past.failures == old(docker.past).failures) ==>
        pool.pool == old(pool.pool)
      ensures alone && first.None? ==>
        var given := Give(old(pool.pool), KeyOf(ProgOf(c)), box);
        if docker.past.hard > old(docker.past).hard then pool.pool == old(pool.pool)
        else if Doable(w, c) then pool.pool == given
        else pool.pool == old(pool.pool) || pool.pool == given
      ensures alone && redis.past.failures == old(redis.past).failures && first.Some? ==>
        FoundBy(w, c, first.value, raw, old(redis.store), redis.store)
      ensures alone && raw && first.Some? ==>
        docker.files == old(docker.files) && redis.store == old(redis.store) &&
        ResultHit(old(redis.store), Key(w, c, 0)).Some?
      ensures alone && redis.past.failures == old(redis.past).failures && first.Some? ==>
        prep.runnable && Compiled(ProgOf(c).lang) ==> HasArtifact(w, ProgOf(c))
      ensures !Compiled(ProgOf(c).lang) ==> docker.past.built == old(docker.past).built
      ensures alone && old(HasArtifact(w, ProgOf(c))) && redis.past.failures == old(redis.past).failures ==>
        docker.past.built == old(docker.past).built
    {
      hide PoolKeys, Shelf, Trim, FreshBuild, OneDocument;
      var attempt;
      attempt, prep, raw := FirstOf(w, c, box, alone, bad, home);
      match attempt
      case Success(v) => first := Some(v);
      case Failure(returned) =>
        first := None;
        if returned {
          HandBack(ProgOf(c), box, home);
        } else {
          StockedDrop(pool.pool, [box], KeyOf(ProgOf(c)), KeyOf(ProgOf(c)), home);
        }
    }

    /** The first request has failed: the batch is cut short, and its container handed back. */
    method Cut(w: World, c: Call, prep: Prepared, first: Visible, box: nat, ghost bad: set<Prog>,
            ghost home: map<nat, string>, ghost entry: Pool)
      returns (out: Outcome)
      requires WorldOk(w) && Fit(w, bad, home, KeyOf(ProgOf(c)), [box]) && c.kind.Batch?
      requires KnowsBuild(w, ProgOf(c), prep.runnable, prep.stderr) && (prep.stderr != "" || first.exitCode != 0)
      requires Clean(w, bad, ProgOf(c)) && prep.stderr == "" ==> first == Want(w, c, 0)
      modifies pool
      ensures Fit(w, bad, home, KeyOf(ProgOf(c)), [])
      ensures out == Ok([if prep.stderr != "" then CompileError(prep.stderr) else first]
                        + seq(|c.rest|, _ => PLACEHOLDER))
      ensures |out.results| == Count(c) && out.results[0].exitCode != 0
      ensures Clean(w, bad, ProgOf(c)) ==> out.results == Expected(w, c)
      ensures Take(entry, KeyOf(ProgOf(c))) == (old(pool.pool), Some(box)) ==> pool.pool == entry
    {
      if Take(entry, KeyOf(ProgOf(c))) == (pool.pool, Some(box)) {
        TakenAndGiven(entry, KeyOf(ProgOf(c)), box);
      }
      HandBack(ProgOf(c), box, home);
      if Clean(w, bad, ProgOf(c)) {
        CutIsExpected(w, c, prep.runnable, prep.stderr, first);
      }
      out := Ok([if prep.stderr != "" then CompileError(prep.stderr) else first] + seq(|c.rest|, _ => PLACEHOLDER));
    }

    /** A batch that has its first result. */
    method Proceed(w: World, c: Call, first: Visible, box: nat, prep: Prepared, ghost raw: bool, ghost alone: bool,
            ghost bad: set<Prog>, ghost home: map<nat, string>, ghost entry: Pool, ghost files: Files,
            ghost store: map<string, Entry>)
      returns (out: Outcome, ghost spoilt: bool, ghost log: seq<seq<nat>>)
      requires WorldOk(w) && Fit(w, bad, home, KeyOf(ProgOf(c)), [box]) && OfPair(ProgOf(c)) && c.kind.Batch?
      requires KnowsBuild(w, ProgOf(c), prep.runnable, prep.stderr) && box in docker.files
      requires Clean(w, bad, ProgOf(c)) && prep.stderr == "" ==> first == Want(w, c, 0)
      requires Prepped(w, ProgOf(c), prep, [box], if raw then {box} else {}, docker.files)
      requires alone ==> Take(entry, KeyOf(ProgOf(c))) == (pool.pool, Some(box)) && (raw ==> docker.files[box] == files)
      modifies `permits, `away, pool, docker`files, docker`past, redis
      ensures Fit(w, Worse(bad, c, spoilt), home, KeyOf(ProgOf(c)), [])
      ensures spoilt ==> raw || Excused(ProgOf(c), old(docker.past), docker.past, old(redis.past), redis.past)
      ensures out.Ok? ==> |out.results| == Count(c)
      ensures out.Ok? && Clean(w, bad, ProgOf(c)) ==> out.results[0] == Expected(w, c)[0]
      ensures out.Ok? && Clean(w, Worse(bad, c, spoilt), ProgOf(c)) ==> out.results == Expected(w, c)
      ensures SinceLoaded(old(docker.past), docker.past) && SinceAsked(old(redis.past), redis.past)
      ensures RanSince(old(docker.past).ran, docker.past.ran, 1, Flat(log))
      ensures out.Err? ==> docker.past.failures > old(docker.past).failures || !Doable(w, c)
      ensures out.Err? ==> log != [] || docker.past.hard > old(docker.past).hard
      ensures alone && out.Err? ==> Short(entry, pool.pool, KeyOf(ProgOf(c)))
      ensures out.Fault? ==> Count(c) >= 3
      ensures alone ==> permits == old(permits)
      ensures alone ==> Undisturbed(c, out, log, permits, entry, pool.pool)
      ensures alone && !out.Err? ==>
        (out.Fault? <==> Starves(c, permits) && prep.stderr == "" && first.exitCode == 0)
      ensures prep.stderr != "" ==> out == Ok([CompileError(prep.stderr)] + seq(|c.rest|, _ => PLACEHOLDER))
      ensures alone && prep.stderr != "" ==> pool.pool == entry
      ensures alone && Flawless(old(docker.past), docker.past, old(redis.past), redis.past) ==>
        (prep.runnable && Compiled(ProgOf(c).lang) ==> old(HasArtifact(w, ProgOf(c)))) && !out.Err? ==>
          FoundBy(w, c, first, raw, store, old(redis.store)) ==> BatchCame(w, c, files, store, out, spoilt)
    {
      hide BatchCame, LoopCame, Shown, Key, Undisturbed, FoundBy, PoolKeys, Shelf, Trim, RanSince, Worse, Flat, Want,
        Expected;
      if prep.stderr != "" || first.exitCode != 0 {
        spoilt, log := false, [];
        Unspoilt(w, c, 0, 0, bad);
        NothingRan(docker.past.ran);
        out := Cut(w, c, prep, first, box, bad, home, entry);
        CameShort(w, c, prep, first, raw, files, store, old(redis.store), out);
        EndedEarly(c, out.results, permits, entry);
      } else {
        ghost var left := docker.files[box];
        out, spoilt, log := BatchRest(w, c, first, box, if raw then {box} else {}, prep, alone, bad, home, entry);
        CameBy(w, c, prep, first, raw, box, files, left, store, old(redis.store), out, spoilt);
        if Clean(w, bad, ProgOf(c)) {
          FirstIsExpected(w, c, prep, first);
        }
      }
    }

    /** The batch with its first container. */
    method BatchWith(w: World, c: Call, box: nat, ghost alone: bool, ghost bad: set<Prog>,
            ghost home: map<nat, string>, ghost entry: Pool)
      returns (out: Outcome, ghost spoilt: bool, ghost log: seq<seq<nat>>)
      requires WorldOk(w) && Fit(w, bad, home, KeyOf(ProgOf(c)), [box]) && OfPair(ProgOf(c)) && c.kind.Batch?
      requires Take(entry, KeyOf(ProgOf(c))) == (pool.pool, Some(box)) && box in docker.files
      modifies `permits, `away, pool, docker`files, docker`past, redis
      ensures Fit(w, Worse(bad, c, spoilt), home, KeyOf(ProgOf(c)), [])
      ensures spoilt ==> SpoilCause(ProgOf(c), old(docker.past), docker.past, old(redis.past), redis.past)
      ensures alone && spoilt ==>
        || ResultHit(old(redis.store), Key(w, c, 0)).Some?
        || Excused(ProgOf(c), old(docker.past), docker.past, old(redis.past), redis.past)
      ensures out.Ok? ==> |out.results| == Count(c)
      ensures out.Ok? && Clean(w, bad, ProgOf(c)) ==> out.results[0] == Expected(w, c)[0]
      ensures out.Ok? && Clean(w, Worse(bad, c, spoilt), ProgOf(c)) ==> out.results == Expected(w, c)
      ensures Since(old(docker.past), docker.past) && SinceAsked(old(redis.past), redis.past)
      ensures RanSince(old(docker.past).ran, docker.past.ran, 0, [box] + Flat(log))
      ensures out.Err? ==> docker.past.failures > old(docker.past).failures || !Doable(w, c)
      ensures alone && out.Err? && Doable(w, c) ==>
        (pool.pool == entry <==> docker.past.hard == old(docker.past).hard && log == [])
      ensures out.Fault? ==> Count(c) >= 3
      ensures alone ==> permits == old(permits)
      ensures alone ==> Undisturbed(c, out, log, permits, entry, pool.pool)
      ensures alone && Clean(w, bad, ProgOf(c)) && !out.Err? ==>
        (out.Fault? <==> Starves(c, permits) && FirstEndsWell(w, c))
      ensures alone && docker.past.failures == old(docker.past).failures ==>
        Clean(w, bad, ProgOf(c)) && FailsToBuild(w, ProgOf(c)) ==> Told(w, c, out, entry, pool.pool)
      ensures alone && Flawless(old(docker.past), docker.past, old(redis.past), redis.past) ==>
        !out.Err? ==> BatchCame(w, c, old(docker.files)[box], old(redis.store), out, spoilt)
      ensures !Compiled(ProgOf(c).lang) ==> docker.past.built == old(docker.past).built
      ensures alone && old(HasArtifact(w, ProgOf(c))) && redis.past.failures == old(redis.past).failures ==>
        docker.past.built == old(docker.past).built
    {
      hide BatchCame, Undisturbed, FoundBy, FirstEndsWell, Told, KnowsBuild, PoolKeys, Shelf, Trim, RanSince, Worse,
        Flat, Want, Expected, Prepped, FreshBuild, OneDocument, Key, StoreGood, Stocked, ArtifactKey, InOrder;
      var first, prep;
      ghost var raw, before := false, docker.past.ran;
      first, prep, raw := Begin(w, c, box, alone, bad, home);
      ghost var between := docker.past.ran;
      RanFirst(before, between, box);
      if first.None? {
        Unspoilt(w, c, 0, 0, bad);
        NothingRan(between);
        RanJoin(before, between, between, 0, [box], Flat([]));
        TakenShort(entry, KeyOf(ProgOf(c)), box);
        FailedEarly(c, permits, entry, pool.pool);
        if FailsToBuild(w, ProgOf(c)) {
          ToldNothing(w, c, entry, pool.pool);
        }
        return Err, false, [];
      }
      EndsWellExactly(w, c, prep, first.value, bad);
      out, spoilt, log := Proceed(w, c, first.value, box, prep, raw, alone, bad, home, entry, old(docker.files)[box],
        old(redis.store));
      RanJoin(before, between, docker.past.ran, 0, [box], Flat(log));
      if FailsToBuild(w, ProgOf(c)) && prep.stderr != "" && Certain(ProgOf(c)) {
        ToldError(w, c, prep, first.value, out, entry, pool.pool);
      }
    }

    /** `execute_batch` once it has its permit; `first` is the container of its first request. */
    method BatchHolding(w: World, c: Call, ghost alone: bool, ghost bad: set<Prog>, ghost home: map<nat, string>)
      returns (out: Outcome, ghost spoilt: bool, ghost first: nat, ghost log: seq<seq<nat>>)
      requires WorldOk(w) && Fit(w, bad, home, "", []) && c.kind.Batch?
      modifies `permits, `away, pool, docker`files, docker`past, redis
      ensures Fit(w, Worse(bad, c, spoilt), home, "", [])
      ensures spoilt ==> SpoilCause(ProgOf(c), old(docker.past), docker.past, old(redis.past), redis.past)
      ensures alone && spoilt ==>
        || ResultHit(old(redis.store), Key(w, c, 0)).Some?
        || Excused(ProgOf(c), old(docker.past), docker.past, old(redis.past), redis.past)
      ensures out.Ok? ==> |out.results| == Count(c)
      ensures out.Ok? && Clean(w, bad, ProgOf(c)) ==> out.results[0] == Expected(w, c)[0]
      ensures out.Ok? && Clean(w, Worse(bad, c, spoilt), ProgOf(c)) ==> out.results == Expected(w, c)
      ensures Since(old(docker.past), docker.past) && SinceAsked(old(redis.past), redis.past)
      ensures RanSince(old(docker.past).ran, docker.past.ran, 0, [first] + Flat(log))
      ensures alone && docker.past.ran != old(docker.past).ran ==>
        Take(old(pool.pool), KeyOf(ProgOf(c))).1 == Some(first)
      ensures alone && out.Err? && Feasible(w, c, old(pool.pool)) ==>
        (pool.pool == old(pool.pool) <==> docker.past.hard == old(docker.past).hard && log == [])
      ensures out.Fault? ==> Count(c) >= 3
      ensures alone ==> permits == old(permits)
      ensures alone ==> Undisturbed(c, out, log, permits, old(pool.pool), pool.pool)
      ensures alone && out.Err? ==> docker.past.failures > old(docker.past).failures || !Feasible(w, c, old(pool.pool))
      ensures alone && Clean(w, bad, ProgOf(c)) && !out.Err? ==>
        (out.Fault? <==> Starves(c, permits) && FirstEndsWell(w, c))
      ensures alone && docker.past.failures == old(docker.past).failures ==>
        ToldIfAny(w, c, bad, out, old(pool.pool), pool.pool)
      ensures alone && Flawless(old(docker.past), docker.past, old(redis.past), redis.past) && !out.Err? ==>
        BatchCame(w, c, FirstFiles(old(docker.files), old(pool.pool), KeyOf(ProgOf(c))), old(redis.store), out, spoilt)
      ensures !Accepted(c) ==> out.Err?
      ensures !Compiled(ProgOf(c).lang) ==> docker.past.built == old(docker.past).built
      ensures alone && old(HasArtifact(w, ProgOf(c))) && redis.past.failures == old(redis.past).failures ==>
        docker.past.built == old(docker.past).built
    {
      hide BatchCame, Undisturbed, FirstEndsWell, Told, RanSince, Worse, Flat, Want, Expected, PoolKeys, Shelf, Trim,
        FreshBuild, OneDocument, Key;
      spoilt, first, log := false, 0, [];
      var box;
      ghost var entry;
      box, entry := Open(w, c, alone, bad, home);
      if box.None? {
        Unspoilt(w, c, 0, 0, bad);
        RanNone(docker.past.ran, 0, [0] + Flat([]));
        FailedEarly(c, permits, entry, pool.pool);
        return Err, false, 0, [];
      }
      first := box.value;
      assert box.value in [box.value];
      out, spoilt, log := BatchWith(w, c, box.value, alone, bad, home, entry);
      StockedDrop(pool.pool, [], KeyOf(ProgOf(c)), "", home);
    }

    /**
     * `execute_batch`. Whatever other calls do between its operations, an Ok result has the answers to the
     * requests, in their order, or placeholders after a first that does not end well, for a program that is neither
     * bad before nor spoilt by another call meanwhile (`foul`), unless the batch itself has spoilt it; and it has done
     * so (`spoilt`) only if it found the first result of an interpreted program in the cache, did not find its
     * artifact for a further container, or was late in writing an interpreted one. Each request runs at most once,
     * on the container that `first` and `log` have for it. With no other call in flight the batch returns
     * every container, unless it ends with an error, and then it has lost some, unless that is a failure of the
     * first request that is not passed on. It faults exactly if there is no further permit, a third request, and
     * a first one that ends well; a build that fails is reported exactly if the first request has stdin; and if no
     * operation fails at all the results are what `Yields` says.
     */
    method ExecuteBatch(w: World, requests: seq<Request>, ghost alone: bool, ghost bad: set<Prog>,
            ghost foul: set<Prog>, ghost home: map<nat, string>)
      returns (out: Outcome, ghost spoilt: bool, ghost first: nat, ghost log: seq<seq<nat>>)
      requires WorldOk(w) && Fit(w, bad, home, "", []) && inside == 0 && (requests != [] ==> Entering(alone))
      modifies this, pool, docker`files, docker`past, redis
      ensures spoilt ==>
        && requests != []
        && SpoilCause(ProgOf(BatchOf(requests)), old(docker.past), docker.past, old(redis.past), redis.past)
      ensures alone && spoilt ==>
        || ResultHit(old(redis.store), Key(w, BatchOf(requests), 0)).Some?
        || Excused(ProgOf(BatchOf(requests)), old(docker.past), docker.past, old(redis.past), redis.past)
      ensures Fit(w, bad + foul + Spoils(requests, spoilt), home, "", [])
      ensures inside == 0 && (alone ==> permits == old(permits))
      ensures Since(old(docker.past), docker.past) && SinceAsked(old(redis.past), redis.past)
      ensures RanSince(old(docker.past).ran, docker.past.ran, 0, [first] + Flat(log))
      ensures out.Ok? ==> |out.results| == |requests|
      ensures out.Fault? ==> |requests| >= 3
      ensures requests == [] ==> out == Ok([]) && unchanged(`permits) && unchanged(pool) && unchanged(docker)
      ensures requests != [] ==> var r := requests[0];
        && (out.Ok? && Clean(w, bad + foul, ProgramOf(r)) ==> Answers(w, r, r.stdin, out.results[0]))
        && (out.Ok? && !spoilt && Clean(w, bad + foul, ProgramOf(r)) ==> BatchAnswers(w, requests, out.results))
        && (!BatchSupported(requests) ==> out.Err?)
        && (alone && out.Err? ==>
              docker.past.failures > old(docker.past).failures || !CanServeBatch(w, requests, old(pool.pool)))
        && (alone && out.Err? && CanServeBatch(w, requests, old(pool.pool)) ==>
              (pool.pool == old(pool.pool) <==> docker.past.hard == old(docker.past).hard && log == []))
      ensures requests != [] ==> var c := BatchOf(requests);
        && (alone ==> Undisturbed(c, out, log, old(permits) - 1, old(pool.pool), pool.pool))
        && (alone && docker.past.ran != old(docker.past).ran ==>
              Take(old(pool.pool), KeyOf(ProgOf(c))).1 == Some(first))
      ensures requests != [] && alone && docker.past.failures == old(docker.past).failures ==>
        var c := BatchOf(requests);
        && (CanServeBatch(w, requests, old(pool.pool)) && Clean(w, bad + foul, ProgramOf(requests[0])) ==>
              (out.Fault? <==> old(permits) == 1 && |requests| >= 3 && EndsWell(w, requests[0])))
        && ToldIfAny(w, c, bad + foul, out, old(pool.pool), pool.pool)
      ensures requests != [] && Flawless(old(docker.past), docker.past, old(redis.past), redis.past) ==>
        var c := BatchOf(requests);
        var files := FirstFiles(old(docker.files), old(pool.pool), KeyOf(ProgOf(c)));
        alone && out.Ok? && Clean(w, bad + foul, ProgOf(c)) ==> Yields(w, c, old(redis.store), files, out.results)
      ensures requests != [] ==> var artifact := ArtifactKey(w, ProgramOf(requests[0]));
        alone && artifact in old(redis.store) && old(redis.store)[artifact].ArtifactEntry? ==>
          redis.past.failures == old(redis.past).failures ==> docker.past.built == old(docker.past).built
    {
      hide PoolKeys, Shelf, Trim, RanSince, Undisturbed, FirstEndsWell, Key, Expected, Want, FreshBuild, OneDocument,
        Answers, BatchAnswers, CanServeBatch, BatchSupported, EndsWell, InOrder, Worse, SpoilCause,
        ToldIfAny, Feasible, Fresh, Excused;
      spoilt, first, log := false, 0, [];
      OrderGrows(w, bad, bad + foul, home, redis.store, docker.files, pool.pool);
      if requests == [] {
        assert bad + foul + {} == bad + foul;
        RanNone(docker.past.ran, 0, [0] + Flat([]));
        return Ok([]), false, 0, [];
      }
      ghost var c := BatchOf(requests);
      BatchOfIs(requests);
      FeasibleExactly(w, c, pool.pool);
      SupportedExactly(c);
      Acquire(w, alone, bad + foul, home);
      out, spoilt, first, log := BatchHolding(w, BatchOf(requests), alone, bad + foul, home);
      WorseSpoils(bad + foul, requests, spoilt);
      if Clean(w, bad + foul, ProgOf(c)) {
        BatchAnswered(w, bad + foul, c, out, spoilt);
      }
      Release(w, bad + foul + Spoils(requests, spoilt), home);
    }
  }
}
