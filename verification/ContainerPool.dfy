/**
 * The keyed container pool: filled once at start-up, then taken from and returned to.
 */
module ContainerPool {
  import opened Options
  import opened Text
  import opened Platform
  import opened Services
  import opened Custody
  import opened Engine

  /** How many containers there are under a key. */
  function Depth(pool: Pool, key: string): nat {
    if key in pool then |pool[key]| else 0
  }

  /** Containers come back in the opposite order: what was returned last is taken first, and the rest is as it was. */
  lemma LastInFirstOut(pool: Pool, key: string, c: nat)
    ensures Take(Give(pool, key, c), key).1 == Some(c)
    ensures key in pool ==> Take(Give(pool, key, c), key).0 == pool
  {
    if key in pool {
      assert (pool[key] + [c])[..|pool[key]|] == pool[key];
    }
  }

  /** Every container is in the pool, once, under its own key. */
  ghost predicate Shelved(pool: Pool, home: map<nat, string>) {
    && (forall k :: k in pool ==> Distinct(pool[k]))
    && (forall k, c :: k in pool && c in pool[k] ==> c in home && home[c] == k)
    && (forall c :: c in home ==> home[c] in pool && c in pool[home[c]])
  }

  lemma ShelvedPlaced(pool: Pool, home: map<nat, string>, place: map<nat, Place>)
    requires Shelved(pool, home) && place.Keys == home.Keys && forall c :: c in place ==> place[c] == InPool
    ensures PoolPlaced(pool, place, home)
  {
    forall k, c | k in pool && c in pool[k] ensures c in place && place[c] == InPool && home[c] == k {
      assert c in home.Keys;
    }
    forall c | c in place ensures c in home && home[c] in pool && c in pool[home[c]] {
      assert c in home.Keys;
    }
  }

  predicate AllEmpty(files: map<nat, Files>) {
    forall x :: x in files ==> files[x] == map[]
  }

  lemma EmptyStart()
    ensures AllEmpty(map[]) && Shelved(map[], map[]) && forall pairs :: KeysUpTo(pairs, 0) == {}
  {
  }

  lemma FilledPlaced(w: World, pool: Pool)
    requires Shelved(pool, w.home)
    ensures Placed(Custody(w.total, pool, map[], {}, map[], [], map c | c in w.home :: InPool), w.home)
  {
    ShelvedPlaced(pool, w.home, map c | c in w.home :: InPool);
  }

  /** The state that a filled pool and a full semaphore make is one that the engine starts from. */
  lemma StartsEngine(w: World, pool: Pool, files: map<nat, Files>)
    requires Shelved(pool, w.home) && pool.Keys == PoolKeys() && files.Keys == w.home.Keys && AllEmpty(files)
    ensures var cu := Custody(w.total, pool, map[], {}, map[], [], map c | c in w.home :: InPool);
      Init(w, State(cu, files, map[], [], {}))
  {
    FilledPlaced(w, pool);
  }

  /** The stacks that start-up makes. */
  lemma StartupKeys()
    ensures PoolKeys() == {"python:3.9", "pypy:3.9", "java:java-slim-executor", "java11:11", "c:11", "cpp:11",
      "javascript:18"}
  {
    var keys := {"python:3.9", "pypy:3.9", "java:java-slim-executor", "java11:11", "c:11", "cpp:11", "javascript:18"};
    assert PoolKey("python", "3.9") == "python:3.9" && PoolKey("pypy", "3.9") == "pypy:3.9";
    assert PoolKey("java", "java-slim-executor") == "java:java-slim-executor" && PoolKey("java11", "11") == "java11:11";
    assert PoolKey("c", "11") == "c:11" && PoolKey("cpp", "11") == "cpp:11";
    assert PoolKey("javascript", "18") == "javascript:18";
    assert PoolKey(PAIRS[0].0, PAIRS[0].1) in PoolKeys() && PoolKey(PAIRS[1].0, PAIRS[1].1) in PoolKeys();
    assert PoolKey(PAIRS[2].0, PAIRS[2].1) in PoolKeys() && PoolKey(PAIRS[3].0, PAIRS[3].1) in PoolKeys();
    assert PoolKey(PAIRS[4].0, PAIRS[4].1) in PoolKeys() && PoolKey(PAIRS[5].0, PAIRS[5].1) in PoolKeys();
    assert PoolKey(PAIRS[6].0, PAIRS[6].1) in PoolKeys();
    forall key | key in PoolKeys() ensures key in keys {
      var i :| 0 <= i < |PAIRS| && PoolKey(PAIRS[i].0, PAIRS[i].1) == key;
      assert i == 0 || i == 1 || i == 2 || i == 3 || i == 4 || i == 5 || i == 6;
    }
  }

  /** No two pairs have the same key. */
  predicate Separate(pairs: seq<(string, string)>) {
    forall i, j :: 0 <= i < j < |pairs| ==> PoolKey(pairs[i].0, pairs[i].1) != PoolKey(pairs[j].0, pairs[j].1)
  }

  function KeysUpTo(pairs: seq<(string, string)>, n: nat): set<string>
    requires n <= |pairs|
  {
    set i | 0 <= i < n :: PoolKey(pairs[i].0, pairs[i].1)
  }

  lemma KeysNext(pairs: seq<(string, string)>, n: nat)
    requires n < |pairs| && Separate(pairs)
    ensures KeysUpTo(pairs, n + 1) == KeysUpTo(pairs, n) + {PoolKey(pairs[n].0, pairs[n].1)}
    ensures PoolKey(pairs[n].0, pairs[n].1) !in KeysUpTo(pairs, n)
  {
  }

  lemma PairKeysApart(a: (string, string), b: (string, string))
    requires NoColon(a.0) && NoColon(a.1) && a != b
    ensures PoolKey(a.0, a.1) != PoolKey(b.0, b.1)
  {
    if PoolKey(a.0, a.1) == PoolKey(b.0, b.1) {
      OnlyColon(a.0, a.1, b.0, b.1);
    }
  }

  /** The configured pairs are such pairs. */
  lemma PairsSeparate()
    ensures Separate(PAIRS) && KeysUpTo(PAIRS, |PAIRS|) == PoolKeys()
  {
    forall i, j | 0 <= i < j < |PAIRS| ensures PoolKey(PAIRS[i].0, PAIRS[i].1) != PoolKey(PAIRS[j].0, PAIRS[j].1) {
      PairKeysApart(PAIRS[i], PAIRS[j]);
    }
  }

  /** The containers with those of a new pair. */
  function Joined(home: map<nat, string>, key: string, cs: seq<nat>): map<nat, string> {
    home + (map c | c in Elems(cs) :: key)
  }

  /** A new key with containers of its own joins a pool in which every container is in its place. */
  lemma ShelvesMore(pool: Pool, home: map<nat, string>, key: string, cs: seq<nat>)
    requires Shelved(pool, home) && key !in pool && Distinct(cs)
    requires forall c :: c in cs ==> c !in home
    ensures Shelved(pool[key := cs], Joined(home, key, cs))
  {
  }

  /** How many containers `pairs` pairs are to have. */
  function Due(pairs: nat, count: nat): nat {
    if pairs == 0 then 0 else Due(pairs - 1, count) + count
  }

  lemma MoreContainers(home: map<nat, string>, key: string, cs: seq<nat>)
    requires Distinct(cs) && forall c :: c in cs ==> c !in home
    ensures Joined(home, key, cs).Keys == home.Keys + Elems(cs)
    ensures |Joined(home, key, cs)| == |home| + |cs|
  {
    var more, all := map c | c in Elems(cs) :: key, Joined(home, key, cs);
    DistinctSize(cs);
    assert more.Keys == Elems(cs) && all.Keys == home.Keys + more.Keys && home.Keys !! more.Keys;
    assert |all| == |all.Keys| && |home| == |home.Keys|;
  }

  class ContainerPool {
    var pool: Pool

    constructor ()
      ensures pool == map[]
    {
      pool := map[];
    }

    /** The idle containers for one pair; a container that cannot be made is left out. */
    method CreateIdle(docker: Docker, count: nat) returns (containers: seq<nat>, failed: nat)
      requires docker.Valid()
      modifies docker
      ensures docker.Valid()
      ensures docker.files.Keys == old(docker.files.Keys) + Elems(containers)
      ensures failed == docker.past.failures - old(docker.past.failures)
      ensures old(AllEmpty(docker.files)) ==> AllEmpty(docker.files)
      ensures Distinct(containers) && forall c :: c in containers ==> c !in old(docker.files)
      ensures |containers| + failed == count
    {
      containers, failed := [], 0;
      for i := 0 to count
        invariant docker.Valid()
        invariant docker.files.Keys == old(docker.files.Keys) + Elems(containers)
        invariant failed == docker.past.failures - old(docker.past.failures)
        invariant old(AllEmpty(docker.files)) ==> AllEmpty(docker.files)
        invariant Distinct(containers) && forall c :: c in containers ==> c !in old(docker.files)
        invariant |containers| + failed == i
      {
        assert forall c :: c in containers ==> c in Elems(containers) && c in docker.files;
        var made := docker.Create();
        if made.Some? {
          containers := containers + [made.value];
        } else {
          failed := failed + 1;
        }
      }
    }

    /** The containers of one pair are made and put into the pool. */
    method AddPair(docker: Docker, lang: string, ver: string, count: nat, ghost home: map<nat, string>)
      returns (failed: nat, ghost home': map<nat, string>)
      requires docker.Valid() && docker.files.Keys == home.Keys
      requires Shelved(pool, home) && PoolKey(lang, ver) !in pool
      modifies this, docker
      ensures docker.Valid() && docker.files.Keys == home'.Keys && Shelved(pool, home')
      ensures pool.Keys == old(pool.Keys) + {PoolKey(lang, ver)}
      ensures forall k :: k in old(pool) ==> pool[k] == old(pool)[k]
      ensures failed == docker.past.failures - old(docker.past.failures)
      ensures old(AllEmpty(docker.files)) ==> AllEmpty(docker.files)
      ensures Depth(pool, PoolKey(lang, ver)) + failed == count && |home'| == |home| + count - failed
    {
      hide AllEmpty, Shelved, Distinct, Elems, Joined;
      var key := lang + ":" + ver;
      var containers;
      containers, failed := CreateIdle(docker, count);
      ShelvesMore(pool, home, key, containers);
      MoreContainers(home, key, containers);
      home' := Joined(home, key, containers);
      pool := pool[key := containers];
    }

    /** init_container_pool: every container made is in the pool, once, under the key it was made for. */
    method InitContainerPool(docker: Docker, pairs: seq<(string, string)>, count: nat)
      returns (failed: nat, ghost home: map<nat, string>)
      requires docker.Valid() && docker.files == map[] && pool == map[] && Separate(pairs)
      modifies this, docker
      ensures docker.Valid() && docker.files.Keys == home.Keys && Shelved(pool, home)
      ensures pool.Keys == KeysUpTo(pairs, |pairs|)
      ensures failed == docker.past.failures - old(docker.past.failures) && AllEmpty(docker.files)
      ensures forall k :: k in pool ==> |pool[k]| <= count <= |pool[k]| + failed
      ensures |home| + failed == Due(|pairs|, count)
    {
      hide AllEmpty, Shelved, PoolKey, KeysUpTo, Separate;
      failed, home := 0, map[];
      EmptyStart();
      for i := 0 to |pairs|
        invariant docker.Valid() && docker.files.Keys == home.Keys && Shelved(pool, home)
        invariant pool.Keys == KeysUpTo(pairs, i)
        invariant failed == docker.past.failures - old(docker.past.failures) && AllEmpty(docker.files)
        invariant forall k :: k in pool ==> |pool[k]| <= count <= |pool[k]| + failed
        invariant |home| + failed == Due(i, count)
      {
        KeysNext(pairs, i);
        var f;
        f, home := AddPair(docker, pairs[i].0, pairs[i].1, count, home);
        failed := failed + f;
      }
    }

    method GetContainer(lang: string, ver: string) returns (r: Option<nat>)
      modifies this
      ensures (pool, r) == Take(old(pool), PoolKey(lang, ver))
    {
      var key := lang + ":" + ver;
      r := None;
      if key in pool {
        var n := |pool[key]|;
        if n > 0 {
          r := Some(pool[key][n - 1]);
          pool := pool[key := pool[key][..n - 1]];
        }
      }
    }

    method ReturnContainer(lang: string, ver: string, c: nat)
      modifies this
      ensures pool == Give(old(pool), PoolKey(lang, ver), c)
    {
      var key := lang + ":" + ver;
      if key in pool {
        pool := pool[key := pool[key] + [c]];
      } else {
        pool := pool[key := [c]];
      }
    }

    method AvailableContainers(lang: string, ver: string) returns (n: nat)
      ensures n == Depth(pool, PoolKey(lang, ver))
    {
      var key := lang + ":" + ver;
      n := if key in pool then |pool[key]| else 0;
    }
  }
}
