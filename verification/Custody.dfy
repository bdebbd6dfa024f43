/**
 * Who has which container: the keyed pool of stacks, the permits of the semaphore, and the
 * containers that each call in flight holds. Every step of a call changes this state by at most
 * one of the operations below.
 */
module Custody {
  import opened Options

  type Pool = map<string, seq<nat>>

  /** `get_container` on the pool map: pop the stack under the key, if there is one. */
  function Take(pool: Pool, key: string): (Pool, Option<nat>) {
    if key in pool && pool[key] != [] then
      (pool[key := pool[key][..|pool[key]| - 1]], Some(pool[key][|pool[key]| - 1]))
    else (pool, None)
  }

  /** `return_container` on the pool map: push on the stack under the key, making it if need be. */
  function Give(pool: Pool, key: string, c: nat): Pool {
    if key in pool then pool[key := pool[key] + [c]] else pool[key := [c]]
  }

  datatype Place = InPool | With(id: nat) | Gone

  datatype Custody = Custody(
    permits: nat,                // free permits
    pool: Pool,
    held: map<nat, seq<nat>>,    // the calls that have a permit, and what each holds
    lost: set<nat>,              // containers dropped without being returned
    par: map<nat, nat>,          // max_parallel of each batch in flight that has read the permits
    order: seq<nat>,             // those batches, in the order of reading (history only)
    place: map<nat, Place>)      // where each container is (history only)

  function Enter(cu: Custody, id: nat): Custody
    requires cu.permits > 0
  {
    cu.(permits := cu.permits - 1, held := cu.held[id := []])
  }

  function Without(s: seq<nat>, x: nat): seq<nat> {
    if s == [] then [] else if s[0] == x then Without(s[1..], x) else [s[0]] + Without(s[1..], x)
  }

  function Leave(cu: Custody, id: nat): Custody {
    cu.(permits := cu.permits + 1, held := cu.held - {id}, par := cu.par - {id}, order := Without(cu.order, id))
  }

  function Pop(cu: Custody, id: nat, key: string): Custody
    requires id in cu.held
  {
    match Take(cu.pool, key)
    case (_, None) => cu
    case (pool, Some(c)) =>
      cu.(pool := pool, held := cu.held[id := cu.held[id] + [c]], place := cu.place[c := With(id)])
  }

  function Push(cu: Custody, id: nat, key: string): Custody
    requires id in cu.held && cu.held[id] != []
  {
    var c := cu.held[id][0];
    cu.(pool := Give(cu.pool, key, c), held := cu.held[id := cu.held[id][1..]], place := cu.place[c := InPool])
  }

  function Elems(s: seq<nat>): set<nat> {
    set x | x in s
  }

  function Vacate(place: map<nat, Place>, cs: set<nat>): map<nat, Place> {
    map c | c in place :: if c in cs then Gone else place[c]
  }

  /** The call ends while it still holds containers: nobody returns them. */
  function Abandon(cu: Custody, id: nat): Custody
    requires id in cu.held
  {
    Leave(cu.(lost := cu.lost + Elems(cu.held[id]),
              place := Vacate(cu.place, Elems(cu.held[id]))), id)
  }

  function Min(a: nat, b: nat): nat { if a <= b then a else b }

  function Max(a: nat, b: nat): nat { if a >= b then a else b }

  /** `available_permits().min(...)` */
  function Size(cu: Custody, id: nat, wanted: nat): Custody {
    cu.(par := cu.par[id := Min(cu.permits, wanted)], order := cu.order + [id])
  }

  predicate Distinct(s: seq<nat>) {
    forall i, j :: 0 <= i < j < |s| ==> s[i] != s[j]
  }

  /** The pool holds the containers placed in it, each under its own key and once. */
  ghost predicate PoolPlaced(pool: Pool, place: map<nat, Place>, home: map<nat, string>) {
    && (forall c :: c in place ==> c in home && home[c] in pool)
    && (forall k :: k in pool ==> Distinct(pool[k]))
    && (forall k, c :: k in pool && c in pool[k] ==> c in place && place[c] == InPool && home[c] == k)
    && (forall c :: c in place && place[c] == InPool ==> c in pool[home[c]])
  }

  /** The calls hold the containers placed with them, each once. */
  ghost predicate HeldPlaced(held: map<nat, seq<nat>>, place: map<nat, Place>) {
    && (forall id :: id in held ==> Distinct(held[id]))
    && (forall id, c :: id in held && c in held[id] ==> c in place && place[c] == With(id))
    && (forall c :: c in place && place[c].With? ==> place[c].id in held && c in held[place[c].id])
  }

  ghost predicate LostPlaced(lost: set<nat>, place: map<nat, Place>) {
    forall c :: c in lost <==> c in place && place[c] == Gone
  }

  /** Every container is in exactly one place, and containers in the pool are under their own key. */
  ghost predicate Placed(cu: Custody, home: map<nat, string>) {
    && cu.place.Keys == home.Keys
    && PoolPlaced(cu.pool, cu.place, home)
    && HeldPlaced(cu.held, cu.place)
    && LostPlaced(cu.lost, cu.place)
  }

  function Limit(cu: Custody, id: nat): nat {
    if id in cu.par then Max(1, cu.par[id]) else 1
  }

  /** Each batch's share, by its rank among the batches in flight that have read the permits. */
  ghost predicate Ordered(order: seq<nat>, par: map<nat, nat>, total: nat) {
    && Distinct(order)
    && (forall id :: id in order <==> id in par)
    && (forall i :: 0 <= i < |order| && order[i] in par ==> par[order[i]] + i + 1 <= total)
  }

  /** The permits are accounted for, and every call keeps to its own bound. */
  ghost predicate Bounded(cu: Custody, total: nat) {
    && cu.permits + |cu.held| == total
    && Ordered(cu.order, cu.par, total)
    && cu.par.Keys <= cu.held.Keys
    && (forall id :: id in cu.held ==> |cu.held[id]| <= Limit(cu, id))
  }

  // ---------------------------------------------------------------- every container in one place

  lemma EnterPlaced(cu: Custody, home: map<nat, string>, id: nat)
    requires Placed(cu, home) && cu.permits > 0 && id !in cu.held
    ensures Placed(Enter(cu, id), home)
  {
    EmptyHanded(cu.held, cu.place, id);
  }

  lemma EmptyHanded(held: map<nat, seq<nat>>, place: map<nat, Place>, id: nat)
    requires HeldPlaced(held, place)
    requires id !in held || held[id] == []
    ensures HeldPlaced(held[id := []], place)
    ensures HeldPlaced(held - {id}, place)
  {
  }

  lemma LeavePlaced(cu: Custody, home: map<nat, string>, id: nat)
    requires Placed(cu, home) && id in cu.held && cu.held[id] == []
    ensures Placed(Leave(cu, id), home)
  {
    EmptyHanded(cu.held, cu.place, id);
  }

  lemma TakePlaced(pool: Pool, place: map<nat, Place>, home: map<nat, string>, key: string, to: Place)
    requires PoolPlaced(pool, place, home) && to != InPool
    requires key in pool && pool[key] != []
    ensures var c := pool[key][|pool[key]| - 1];
      c in place && place[c] == InPool && home[c] == key && PoolPlaced(Take(pool, key).0, place[c := to], home)
  {
    var st := pool[key];
    var c := st[|st| - 1];
    assert c in st;
    var rest := st[..|st| - 1];
    assert Distinct(rest);
    assert forall x :: x in st ==> x in rest || x == c;
  }

  lemma GainPlaced(held: map<nat, seq<nat>>, place: map<nat, Place>, id: nat, c: nat)
    requires HeldPlaced(held, place) && id in held
    requires c in place && !place[c].With?
    ensures HeldPlaced(held[id := held[id] + [c]], place[c := With(id)])
  {
    var h := held[id] + [c];
    assert c !in held[id];
    assert forall x :: x in h <==> x in held[id] || x == c;
  }

  lemma PopPlaced(cu: Custody, home: map<nat, string>, id: nat, key: string)
    requires Placed(cu, home) && id in cu.held
    ensures Placed(Pop(cu, id, key), home)
  {
    if key in cu.pool && cu.pool[key] != [] {
      var c := cu.pool[key][|cu.pool[key]| - 1];
      TakePlaced(cu.pool, cu.place, home, key, With(id));
      GainPlaced(cu.held, cu.place, id, c);
    }
  }

  lemma GivePlaced(pool: Pool, place: map<nat, Place>, home: map<nat, string>, key: string, c: nat)
    requires PoolPlaced(pool, place, home)
    requires c in place && place[c] != InPool && home[c] == key
    ensures PoolPlaced(Give(pool, key, c), place[c := InPool], home)
    ensures Give(pool, key, c).Keys == pool.Keys
  {
    var st := pool[key] + [c];
    assert c !in pool[key];
    assert forall x :: x in st <==> x in pool[key] || x == c;
  }

  lemma LosePlaced(held: map<nat, seq<nat>>, place: map<nat, Place>, id: nat, to: Place)
    requires HeldPlaced(held, place) && id in held && held[id] != [] && !to.With?
    ensures HeldPlaced(held[id := held[id][1..]], place[held[id][0] := to])
  {
    var h := held[id];
    assert h[0] in h && h[0] !in h[1..] && Distinct(h[1..]);
    assert place[h[0]] == With(id);
    var held', place' := held[id := h[1..]], place[h[0] := to];
    forall x, y | x in held' && y in held'[x]
      ensures y in place' && place'[y] == With(x)
    {
      assert y in held[x] && place[y] == With(x);
      assert y != h[0];
    }
    forall y | y in place' && place'[y].With?
      ensures place'[y].id in held' && y in held'[place'[y].id]
    {
      assert y in held[place[y].id] && y != h[0];
      assert h == [h[0]] + h[1..];
    }
  }

  lemma LostStays(lost: set<nat>, place: map<nat, Place>, c: nat, to: Place)
    requires LostPlaced(lost, place) && c in place && place[c] != Gone && to != Gone
    ensures LostPlaced(lost, place[c := to])
  {
  }

  lemma PushPlaced(cu: Custody, home: map<nat, string>, id: nat, key: string)
    requires Placed(cu, home) && id in cu.held && cu.held[id] != []
    requires cu.held[id][0] in home && home[cu.held[id][0]] == key
    ensures Placed(Push(cu, id, key), home)
  {
    var c := cu.held[id][0];
    assert c in cu.held[id] && cu.place[c] == With(id);
    GivePlaced(cu.pool, cu.place, home, key, c);
    LosePlaced(cu.held, cu.place, id, InPool);
    LostStays(cu.lost, cu.place, c, InPool);
  }

  lemma VacateHeld(held: map<nat, seq<nat>>, place: map<nat, Place>, id: nat)
    requires HeldPlaced(held, place) && id in held
    ensures HeldPlaced(held - {id}, Vacate(place, Elems(held[id])))
  {
    var place' := Vacate(place, Elems(held[id]));
    forall x, c | x in held - {id} && c in (held - {id})[x]
      ensures c in place' && place'[c] == With(x)
    {
      assert c in held[x];
    }
  }

  lemma AbandonPlaced(cu: Custody, home: map<nat, string>, id: nat)
    requires Placed(cu, home) && id in cu.held
    ensures Placed(Abandon(cu, id), home)
  {
    VacateHeld(cu.held, cu.place, id);
    var gone := Elems(cu.held[id]);
    var place' := Vacate(cu.place, gone);
    assert place'.Keys == cu.place.Keys;
    assert forall c :: c in gone ==> c in cu.place && cu.place[c] == With(id);
    assert PoolPlaced(cu.pool, place', home);
    assert LostPlaced(cu.lost + gone, place');
  }

  /** All containers in the pool. */
  ghost function Pooled(cu: Custody): set<nat> {
    set k, c | k in cu.pool && c in cu.pool[k] :: c
  }

  /** All containers held by calls in flight. */
  ghost function Held(cu: Custody): set<nat> {
    set id, c | id in cu.held && c in cu.held[id] :: c
  }

  lemma SomewhereOnly(cu: Custody, home: map<nat, string>, c: nat)
    requires Placed(cu, home)
    ensures c in Pooled(cu) <==> c in cu.place && cu.place[c] == InPool
    ensures c in Held(cu) <==> c in cu.place && cu.place[c].With?
    ensures c in cu.lost <==> c in cu.place && cu.place[c] == Gone
  {
    if c in cu.place {
      match cu.place[c]
      case InPool => assert c in cu.pool[home[c]];
      case With(id) => assert c in cu.held[id];
      case Gone =>
    }
  }

  /** The pool, the calls and the lost ones share out all containers. */
  lemma Conserved(cu: Custody, home: map<nat, string>)
    requires Placed(cu, home)
    ensures Pooled(cu) + Held(cu) + cu.lost == home.Keys
    ensures Pooled(cu) !! Held(cu) && Pooled(cu) !! cu.lost && Held(cu) !! cu.lost
  {
    forall c: nat
      ensures c in Pooled(cu) + Held(cu) + cu.lost <==> c in home
      ensures c in Pooled(cu) ==> c !in Held(cu) && c !in cu.lost
      ensures c in Held(cu) ==> c !in cu.lost
    {
      SomewhereOnly(cu, home, c);
    }
  }

  lemma HeldOnce(cu: Custody, home: map<nat, string>, a: nat, b: nat, c: nat)
    requires Placed(cu, home) && a in cu.held && b in cu.held && c in cu.held[a] && c in cu.held[b]
    ensures a == b
  {
    assert cu.place[c] == With(a) && cu.place[c] == With(b);
  }

  // ---------------------------------------------------------------- the permits and the bound

  lemma EnterBounded(cu: Custody, total: nat, id: nat)
    requires Bounded(cu, total) && cu.permits > 0 && id !in cu.held
    ensures Bounded(Enter(cu, id), total)
  {
    assert id !in cu.par;
  }

  lemma {:induction false} WithoutKeeps(s: seq<nat>, x: nat)
    requires Distinct(s)
    ensures Distinct(Without(s, x))
    ensures forall y :: y in Without(s, x) <==> y in s && y != x
  {
    if s != [] {
      var rest := Without(s[1..], x);
      WithoutKeeps(s[1..], x);
      assert s == [s[0]] + s[1..];
      assert s[0] !in s[1..];
      assert forall i :: 0 <= i < |rest| ==> rest[i] in rest;
    }
  }

  /** What is left moves to the front. */
  lemma {:induction false} WithoutAt(s: seq<nat>, x: nat, i: nat) returns (j: nat)
    requires i < |Without(s, x)|
    ensures i <= j < |s| && s[j] == Without(s, x)[i]
  {
    if s[0] == x {
      j := WithoutAt(s[1..], x, i);
      j := j + 1;
    } else if i == 0 {
      j := 0;
    } else {
      j := WithoutAt(s[1..], x, i - 1);
      j := j + 1;
    }
  }

  lemma OrderShifts(order: seq<nat>, par: map<nat, nat>, total: nat, id: nat)
    requires Ordered(order, par, total)
    ensures Ordered(Without(order, id), par - {id}, total)
  {
    WithoutKeeps(order, id);
    var order', par' := Without(order, id), par - {id};
    forall i | 0 <= i < |order'| && order'[i] in par'
      ensures par'[order'[i]] + i + 1 <= total
    {
      var j := WithoutAt(order, id, i);
    }
  }

  /** A call may leave in any order: the bound of every batch that stays only becomes easier to keep. */
  lemma LeaveBounded(cu: Custody, total: nat, id: nat)
    requires Bounded(cu, total) && id in cu.held
    ensures Bounded(Leave(cu, id), total)
  {
    OrderShifts(cu.order, cu.par, total, id);
    assert Leave(cu, id).held.Keys == cu.held.Keys - {id};
  }

  lemma PopBounded(cu: Custody, total: nat, id: nat, key: string)
    requires Bounded(cu, total) && id in cu.held && |cu.held[id]| < Limit(cu, id)
    ensures Bounded(Pop(cu, id, key), total)
  {
    assert Pop(cu, id, key).held.Keys == cu.held.Keys;
  }

  lemma PushBounded(cu: Custody, total: nat, id: nat, key: string)
    requires Bounded(cu, total) && id in cu.held && cu.held[id] != []
    ensures Bounded(Push(cu, id, key), total)
  {
    assert Push(cu, id, key).held.Keys == cu.held.Keys;
  }

  lemma AbandonBounded(cu: Custody, total: nat, id: nat)
    requires Bounded(cu, total) && id in cu.held
    ensures Bounded(Abandon(cu, id), total)
  {
    LeaveBounded(cu, total, id);
  }

  lemma {:induction false} DistinctCount(s: seq<nat>, in_: set<nat>)
    requires Distinct(s) && forall x :: x in s ==> x in in_
    ensures |s| <= |in_|
  {
    if s != [] {
      var x := s[|s| - 1];
      var rest := s[..|s| - 1];
      assert x in s;
      forall y | y in rest ensures y in in_ - {x} {
        assert y in s;
      }
      DistinctCount(rest, in_ - {x});
    }
  }

  /** A batch that reads the permits after i others that are still in flight reads at most total - i - 1. */
  lemma SizeBounded(cu: Custody, total: nat, id: nat, wanted: nat)
    requires Bounded(cu, total) && id in cu.held && id !in cu.par && |cu.held[id]| <= 1
    ensures Bounded(Size(cu, id, wanted), total)
  {
    var cu' := Size(cu, id, wanted);
    assert id !in cu.order;
    forall x | x in cu'.order ensures x in cu.held.Keys {
      assert x == id || x in cu.order;
    }
    assert Distinct(cu'.order);
    DistinctCount(cu'.order, cu.held.Keys);
    forall i | 0 <= i < |cu'.order| && cu'.order[i] in cu'.par
      ensures cu'.par[cu'.order[i]] + i + 1 <= total
    {
      if i < |cu.order| {
        assert cu.order[i] in cu.order;
      }
    }
  }

  function Cap(total: nat, i: nat): nat {
    if i + 1 < total then total - i - 1 else 1
  }

  function SumCap(total: nat, k: nat): nat {
    if k == 0 then 0 else SumCap(total, k - 1) + Cap(total, k - 1)
  }

  /** Half of k(2n - k - 1), for k < n. */
  lemma {:induction false} SumCapIs(total: nat, k: nat)
    requires k < total
    ensures 2 * SumCap(total, k) == k * (2 * total - k - 1)
  {
    if k > 0 {
      SumCapIs(total, k - 1);
      assert (k - 1) * (2 * total - k) + 2 * (total - k) == k * (2 * total - k - 1);
    }
  }

  lemma Gap(n: int, k: int)
    requires k < n
    ensures k * (2 * n - k - 1) <= n * (n - 1)
  {
    var d := n - k;
    assert 0 <= d * (d - 1);
    assert n * (n - 1) - k * (2 * n - k - 1) == d * (d - 1);
  }

  lemma SumCapBound(total: nat, k: nat)
    requires k <= total
    ensures 2 * SumCap(total, k) <= total * (total - 1) + 2
  {
    if k == total && k > 0 {
      SumCapIs(total, k - 1);
      assert (total - 1) * (2 * total - (total - 1) - 1) == total * (total - 1);
    } else if k < total {
      SumCapIs(total, k);
      Gap(total, k);
    }
  }

  /** The containers held by some of the calls, one after the other. */
  ghost function HeldBy(cu: Custody, ids: seq<nat>): set<nat> {
    set i, c | 0 <= i < |ids| && ids[i] in cu.held && c in cu.held[ids[i]] :: c
  }

  lemma {:induction false} SeqCount(s: seq<nat>)
    ensures |Elems(s)| <= |s|
  {
    if s != [] {
      SeqCount(s[1..]);
      var rest := Elems(s[1..]);
      assert Elems(s) == {s[0]} + rest;
      assert |{s[0]} + rest| <= 1 + |rest|;
    }
  }

  lemma {:induction false} HeldByCount(cu: Custody, total: nat, ids: seq<nat>)
    requires forall i :: 0 <= i < |ids| ==> ids[i] in cu.held && |cu.held[ids[i]]| <= Cap(total, i)
    ensures |HeldBy(cu, ids)| <= SumCap(total, |ids|)
  {
    if ids == [] {
      assert HeldBy(cu, ids) == {};
    } else {
      var k := |ids| - 1;
      HeldByCount(cu, total, ids[..k]);
      SeqCount(cu.held[ids[k]]);
      var before, last := HeldBy(cu, ids[..k]), Elems(cu.held[ids[k]]);
      assert HeldBy(cu, ids) == before + last;
      assert |before + last| <= |before| + |last|;
    }
  }

  lemma {:induction false} SeqOf(s: set<nat>) returns (q: seq<nat>)
    ensures |q| == |s| && forall x :: x in q <==> x in s
    decreases s
  {
    if s == {} {
      q := [];
    } else {
      var x :| x in s;
      q := SeqOf(s - {x});
      q := q + [x];
    }
  }

  /** The calls in flight, those that have read the permits first and in the order of reading. */
  lemma Ranked(cu: Custody, total: nat) returns (ids: seq<nat>)
    requires Bounded(cu, total)
    ensures |ids| == |cu.held| && Elems(ids) == cu.held.Keys
    ensures forall i :: 0 <= i < |ids| ==> ids[i] in cu.held && |cu.held[ids[i]]| <= Cap(total, i)
  {
    var done := Elems(cu.order);
    var rest := SeqOf(cu.held.Keys - done);
    ids := cu.order + rest;
    DistinctSize(cu.order);
    assert done <= cu.held.Keys;
    assert |cu.held.Keys - done| == |cu.held.Keys| - |done|;
    forall i | 0 <= i < |ids| ensures ids[i] in cu.held && |cu.held[ids[i]]| <= Cap(total, i) {
      RankedAt(cu, total, rest, i);
    }
  }

  lemma RankedAt(cu: Custody, total: nat, rest: seq<nat>, i: nat)
    requires Bounded(cu, total) && i < |cu.order + rest|
    requires forall x :: x in rest <==> x in cu.held.Keys - Elems(cu.order)
    ensures (cu.order + rest)[i] in cu.held && |cu.held[(cu.order + rest)[i]]| <= Cap(total, i)
  {
    if i < |cu.order| {
      assert cu.order[i] in cu.order;
    } else {
      assert rest[i - |cu.order|] in rest;
    }
  }

  lemma {:induction false} DistinctSize(s: seq<nat>)
    requires Distinct(s)
    ensures |Elems(s)| == |s|
  {
    if s != [] {
      DistinctSize(s[1..]);
      var rest := Elems(s[1..]);
      assert s[0] !in rest;
      assert Elems(s) == {s[0]} + rest;
      assert |{s[0]} + rest| == 1 + |rest|;
    }
  }

  /** However calls interleave, those in flight never hold more than n(n-1)/2 + 1 containers. */
  lemma QuadraticBound(cu: Custody, total: nat)
    requires Bounded(cu, total)
    ensures 2 * |Held(cu)| <= total * (total - 1) + 2
    ensures forall i :: 0 <= i < |cu.order| ==>
      cu.order[i] in cu.par && cu.order[i] in cu.held && cu.par[cu.order[i]] <= total - i - 1 &&
        |cu.held[cu.order[i]]| <= Max(1, total - i - 1)
  {
    var ids := Ranked(cu, total);
    HeldByCount(cu, total, ids);
    assert Held(cu) == HeldBy(cu, ids) by {
      forall c | c in Held(cu) ensures c in HeldBy(cu, ids) {
        var id :| id in cu.held && c in cu.held[id];
        assert id in Elems(ids);
      }
    }
    SumCapBound(total, |ids|);
    forall i | 0 <= i < |cu.order|
      ensures cu.order[i] in cu.par && cu.order[i] in cu.held && cu.par[cu.order[i]] <= total - i - 1
      ensures |cu.held[cu.order[i]]| <= Max(1, total - i - 1)
    {
      assert cu.order[i] in cu.order;
    }
  }
}
