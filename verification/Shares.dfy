/**
 * Which containers a batch works with: its share of one stack of the pool, the order in which the
 * chunks use it, and how the stack is left behind.
 */
module Shares {
  import opened Options
  import opened Platform
  import opened Services
  import opened Custody
  import opened ContainerPool
  import opened Engine

  /** The containers on a stack of the pool are distinct ones, made for its key, and not in hand. */
  ghost predicate Shelf(stack: seq<nat>, key: string, mine: seq<nat>, home: map<nat, string>) {
    Distinct(stack) && forall c :: c in stack ==> c in home && home[c] == key && c !in mine
  }

  /** The containers in the pool and those in hand are distinct ones, each pooled under its own key. */
  ghost predicate Stocked(pool: Pool, mine: seq<nat>, key: string, home: map<nat, string>) {
    && pool.Keys == PoolKeys()
    && (forall k :: k in pool ==> Shelf(pool[k], k, mine, home))
    && Distinct(mine)
    && (forall c :: c in mine ==> c in home && home[c] == key)
    && (mine != [] ==> key in pool)
  }

  lemma StockedTake(pool: Pool, mine: seq<nat>, key: string, home: map<nat, string>, c: nat)
    requires Stocked(pool, mine, key, home) && Take(pool, key).1 == Some(c)
    ensures Stocked(Take(pool, key).0, mine + [c], key, home)
  {
    var rest := pool[key][..|pool[key]| - 1];
    assert pool[key] == rest + [c] && c in pool[key];
    assert c !in rest && Distinct(rest);
    assert forall x :: x in rest ==> x in pool[key];
    assert c !in mine && Distinct(mine + [c]);
  }

  lemma StockedGive(pool: Pool, mine: seq<nat>, key: string, home: map<nat, string>)
    requires Stocked(pool, mine, key, home) && mine != []
    ensures Stocked(Give(pool, key, mine[0]), mine[1..], key, home)
  {
    assert mine[0] in mine;
    assert forall c :: c in mine[1..] ==> c in mine;
  }

  /** Only the stack under one key may differ. */
  predicate SameBut(pool: Pool, pool': Pool, key: string) {
    pool'.Keys == pool.Keys && forall k :: k in pool && k != key ==> pool'[k] == pool[k]
  }

  /** The stack under the key is this one now, and the others are as before. */
  predicate Restacked(pool: Pool, pool': Pool, key: string, stack: seq<nat>) {
    SameBut(pool, pool', key) && key in pool' && pool'[key] == stack
  }

  /** Some containers under the key are missing. */
  predicate Short(entry: Pool, pool: Pool, key: string) {
    key in entry && key in pool && |pool[key]| < |entry[key]|
  }

  /** A container taken and handed back leaves the pool as it was. */
  lemma TakenAndGiven(pool: Pool, key: string, c: nat)
    requires Take(pool, key).1 == Some(c)
    ensures Give(Take(pool, key).0, key, c) == pool
  {
    assert pool[key][..|pool[key]| - 1] + [c] == pool[key];
  }

  /** Containers that are dropped leave the rest in order, whatever key one may go on with. */
  lemma StockedDrop(pool: Pool, mine: seq<nat>, key: string, other: string, home: map<nat, string>)
    requires Stocked(pool, mine, key, home)
    ensures Stocked(pool, [], other, home)
  {
  }

  lemma SameStack(pool: Pool, pool': Pool, key: string)
    requires SameBut(pool, pool', key) && (key in pool ==> pool'[key] == pool[key])
    ensures pool' == pool
  {
  }

  /** The n containers taken last from a stack, in the order of taking. */
  function Popped(stack: seq<nat>, n: nat): seq<nat>
    requires n <= |stack|
  {
    seq(n, i requires 0 <= i < n => stack[|stack| - 1 - i])
  }

  lemma PoppedMore(stack: seq<nat>, n: nat)
    requires n < |stack|
    ensures Popped(stack, n + 1) == Popped(stack, n) + [stack[|stack| - 1 - n]]
  {
  }

  lemma {:induction false} PoppedMultiset(stack: seq<nat>, n: nat)
    requires n <= |stack|
    ensures multiset(Popped(stack, n)) == multiset(stack[|stack| - n..])
  {
    if n > 0 {
      PoppedMultiset(stack, n - 1);
      PoppedMore(stack, n - 1);
      assert stack[|stack| - n..] == [stack[|stack| - n]] + stack[|stack| - (n - 1)..];
    }
  }

  lemma PoppedApart(stack: seq<nat>, n: nat)
    requires n <= |stack| && Distinct(stack)
    ensures Distinct(Popped(stack, n)) && forall x :: x in Popped(stack, n) ==> x in stack[|stack| - n..]
  {
    var top := stack[|stack| - n..];
    forall i | 0 <= i < n ensures Popped(stack, n)[i] in top {
      assert Popped(stack, n)[i] == top[n - 1 - i];
    }
  }

  /** How many containers a batch works with, when max_parallel is m and the pool had `depth` of them. */
  function Share(m: nat, depth: nat): nat {
    Max(1, Min(m, depth))
  }

  lemma SharePositive(m: nat, depth: nat)
    ensures Share(m, depth) > 0
  {
  }

  /** With enough containers for every request, as admission asks for, a batch has all it may use. */
  lemma AdmittedShare(permits: nat, n: nat, depth: nat)
    requires 1 < n <= depth && permits > 0
    ensures Share(Min(permits, n - 1), depth) == Min(permits, n - 1)
  {
  }

  predicate Even(n: nat) {
    n == 0 || !Even(n - 1)
  }

  /** The containers of chunk j: the top of the stack in the order of taking, and, every other time, turned round. */
  function Hands(stack: seq<nat>, share: nat, j: nat): seq<nat>
    requires share <= |stack|
  {
    if Even(j) then Popped(stack, share) else stack[|stack| - share..]
  }

  /** Handing all containers back and taking as many again turns their order round. */
  lemma HandsTurn(stack: seq<nat>, share: nat, j: nat)
    requires share <= |stack|
    ensures Popped(stack[..|stack| - share] + Hands(stack, share, j), share) == Hands(stack, share, j + 1)
  {
  }

  /** A stack on which the share was put back is a rearrangement of what it was. */
  lemma HandsBack(stack: seq<nat>, share: nat, j: nat)
    requires share <= |stack|
    ensures multiset(stack[..|stack| - share] + Hands(stack, share, j)) == multiset(stack)
  {
    PoppedMultiset(stack, share);
    assert stack[..|stack| - share] + stack[|stack| - share..] == stack;
  }

  lemma OddHandsBack(stack: seq<nat>, share: nat, j: nat)
    requires share <= |stack| && !Even(j)
    ensures stack[..|stack| - share] + Hands(stack, share, j) == stack
  {
  }

  lemma HandsApart(stack: seq<nat>, share: nat, j: nat)
    requires share <= |stack| && Distinct(stack)
    ensures Distinct(Hands(stack, share, j)) && forall x :: x in Hands(stack, share, j) ==>
      x in stack[|stack| - share..]
  {
    if Even(j) {
      PoppedApart(stack, share);
    }
  }

  /** After i attempts to take one more: what is in hand, and what is left of the stack. */
  predicate Grown(mine: seq<nat>, stack: seq<nat>, i: nat, containers: seq<nat>, left: seq<nat>) {
    var n := Min(i, |stack|);
    containers == mine + Popped(stack, n) && left == stack[..|stack| - n]
  }

  lemma GrownStarts(mine: seq<nat>, stack: seq<nat>)
    ensures Grown(mine, stack, 0, mine, stack)
  {
  }

  lemma GrownMore(mine: seq<nat>, stack: seq<nat>, i: nat, containers: seq<nat>, left: seq<nat>)
    requires Grown(mine, stack, i, containers, left)
    ensures left == [] ==> Grown(mine, stack, i + 1, containers, left)
    ensures left != [] ==> Grown(mine, stack, i + 1, containers + [left[|left| - 1]], left[..|left| - 1])
    ensures |left| <= |stack|
  {
    if i < |stack| {
      PoppedMore(stack, i);
    }
  }

  lemma SmallMod(i: nat, n: nat)
    requires i < n
    ensures i % n == i
  {
  }

  /** `containers[i % containers.len()]` */
  function PickFor(containers: seq<nat>, i: nat): (box: nat)
    requires containers != []
    ensures box in containers
  {
    containers[i % |containers|]
  }

  lemma PickFirst(containers: seq<nat>)
    requires containers != []
    ensures PickFor(containers, 0) == containers[0]
  {
    SmallMod(0, |containers|);
  }

  /** The containers on which the requests of a chunk run. */
  function Used(containers: seq<nat>, count: nat): (boxes: seq<nat>)
    requires count > 0 ==> containers != []
    ensures |boxes| == count && forall x :: x in boxes ==> x in containers
  {
    seq(count, i requires 0 <= i < count => PickFor(containers, i))
  }

  lemma UsedFirst(containers: seq<nat>, count: nat)
    requires containers != [] && count > 0
    ensures Used(containers, count)[0] == containers[0]
  {
    PickFirst(containers);
  }

  /** A chunk no longer than the containers uses each at most once. */
  lemma OneEach(containers: seq<nat>, count: nat)
    requires count <= |containers|
    ensures count > 0 ==> Used(containers, count) == containers[..count]
  {
    forall i | 0 <= i < count ensures PickFor(containers, i) == containers[i] {
      SmallMod(i, |containers|);
    }
  }

  /** Which containers ran which chunk, when nobody interferes: all of the share, but perhaps for the last chunk. */
  ghost predicate Log(log: seq<seq<nat>>, stack: seq<nat>, share: nat, more: bool) {
    share <= |stack| &&
    forall j :: 0 <= j < |log| ==>
      |log[j]| <= share && (j < |log| - 1 || more ==> |log[j]| == share) && log[j] == Hands(stack, share, j)[..|log[j]|]
  }

  lemma LogWith(log: seq<seq<nat>>, stack: seq<nat>, share: nat, part: seq<nat>, more: bool)
    requires Log(log, stack, share, true) && |part| <= share && (more ==> |part| == share)
    requires part == Hands(stack, share, |log|)[..|part|]
    ensures Log(log + [part], stack, share, more)
  {
    var log' := log + [part];
    forall j | 0 <= j < |log'|
      ensures |log'[j]| <= share && (j < |log'| - 1 || more ==> |log'[j]| == share) &&
        log'[j] == Hands(stack, share, j)[..|log'[j]|]
    {
      if j < |log| {
        assert log'[j] == log[j];
      }
    }
  }

  lemma LogMore(log: seq<seq<nat>>, stack: seq<nat>, share: nat, count: nat, more: bool)
    requires Log(log, stack, share, true) && count <= share && (more ==> count == share) && share > 0
    ensures Log(log + [Used(Hands(stack, share, |log|), count)], stack, share, more)
  {
    var hands := Hands(stack, share, |log|);
    OneEach(hands, count);
    assert Used(hands, count) == hands[..count];
    LogWith(log, stack, share, Used(hands, count), more);
  }

  /** How many requests all these chunks have. */
  function Total(log: seq<seq<nat>>): nat {
    if log == [] then 0 else Total(log[..|log| - 1]) + |log[|log| - 1]|
  }

  lemma TotalMore(log: seq<seq<nat>>, used: seq<nat>)
    ensures Total(log + [used]) == Total(log) + |used|
  {
    assert (log + [used])[..|log|] == log;
  }

  /** The containers of all these chunks, one after the other. */
  function Flat(log: seq<seq<nat>>): (boxes: seq<nat>)
    ensures |boxes| == Total(log)
  {
    if log == [] then [] else Flat(log[..|log| - 1]) + log[|log| - 1]
  }

  lemma FlatMore(log: seq<seq<nat>>, used: seq<nat>)
    ensures Flat(log + [used]) == Flat(log) + used
  {
    assert (log + [used])[..|log|] == log;
  }

  lemma {:induction false} FlatAt(log: seq<seq<nat>>, j: nat, i: nat)
    requires j < |log| && i < |log[j]|
    ensures Total(log[..j]) + i < |Flat(log)| && Flat(log)[Total(log[..j]) + i] == log[j][i]
  {
    var rest := log[..|log| - 1];
    if j < |rest| {
      FlatAt(rest, j, i);
      assert rest[..j] == log[..j];
    }
  }

  lemma TakenApart(part: seq<nat>, all: seq<nat>, top: seq<nat>)
    requires |part| <= |all| && part == all[..|part|] && Distinct(all) && forall x :: x in all ==> x in top
    ensures Distinct(part) && forall x :: x in part ==> x in top
  {
    assert forall i :: 0 <= i < |part| ==> part[i] == all[i];
  }

  lemma LogApart(log: seq<seq<nat>>, stack: seq<nat>, share: nat, j: nat)
    requires Log(log, stack, share, false) && j < |log| && Distinct(stack)
    ensures Distinct(log[j]) && forall x :: x in log[j] ==> x in stack[|stack| - share..]
  {
    HandsApart(stack, share, j);
    TakenApart(log[j], Hands(stack, share, j), stack[|stack| - share..]);
  }

  /** Of each of these requests at most one run, on its box. */
  predicate RanIn(ran: seq<Tried>, from: nat, boxes: seq<nat>) {
    && (forall i :: 0 <= i < |ran| ==> from <= ran[i].k < from + |boxes| && ran[i].box == boxes[ran[i].k - from])
    && (forall i, j :: 0 <= i < j < |ran| ==> ran[i].k != ran[j].k)
  }

  /** Such runs were added. */
  predicate RanSince(before: seq<Tried>, after: seq<Tried>, from: nat, boxes: seq<nat>) {
    before <= after && RanIn(after[|before|..], from, boxes)
  }

  lemma RanJoin(before: seq<Tried>, between: seq<Tried>, after: seq<Tried>, from: nat, boxes: seq<nat>, more: seq<nat>)
    requires RanSince(before, between, from, boxes) && RanSince(between, after, from + |boxes|, more)
    ensures RanSince(before, after, from, boxes + more)
  {
    var some, rest, all := between[|before|..], after[|between|..], after[|before|..];
    assert all == some + rest;
  }

  lemma RanNone(ran: seq<Tried>, from: nat, boxes: seq<nat>)
    ensures RanSince(ran, ran, from, boxes)
  {
  }

  lemma NothingRan(ran: seq<Tried>)
    ensures Flat([]) == [] && Total([]) == 0 && RanSince(ran, ran, 1, Flat([]))
  {
  }

  lemma RanFirst(before: seq<Tried>, after: seq<Tried>, box: nat)
    requires after == before || after == before + [Tried(0, box)]
    ensures RanSince(before, after, 0, [box])
  {
  }

  /** How far the runs of a chunk have come: those that have not run yet are idle or missed. */
  predicate RanSlots(before: seq<Tried>, after: seq<Tried>, from: nat, boxes: seq<nat>, slots: seq<Slot>) {
    && |slots| == |boxes| && RanSince(before, after, from, boxes)
    && forall i :: |before| <= i < |after| ==> var slot := slots[after[i].k - from]; !slot.Idle? && !slot.Missed?
  }

  lemma RanStarts(ran: seq<Tried>, from: nat, boxes: seq<nat>)
    ensures RanSlots(ran, ran, from, boxes, seq(|boxes|, _ => Idle))
  {
  }

  lemma RanMore(before: seq<Tried>, after: seq<Tried>, from: nat, boxes: seq<nat>, slots: seq<Slot>, i: nat, x: Slot)
    requires RanSlots(before, after, from, boxes, slots) && i < |slots| && (slots[i].Idle? || !x.Missed?) && !x.Idle?
    ensures RanSlots(before, after + (if slots[i].Missed? then [Tried(from + i, boxes[i])] else []), from, boxes,
                     slots[i := x])
  {
    if slots[i].Missed? {
      var after' := after + [Tried(from + i, boxes[i])];
      assert after'[|before|..] == after[|before|..] + [Tried(from + i, boxes[i])];
      assert forall j :: |before| <= j < |after| ==> after[|before|..][j - |before|] == after[j];
    } else {
      assert after + [] == after;
    }
  }

  lemma LogWidth(log: seq<seq<nat>>, stack: seq<nat>, share: nat, j: nat)
    requires Log(log, stack, share, false) && j < |log|
    ensures |log[j]| <= share && (j < |log| - 1 ==> |log[j]| == share)
  {
  }

  lemma {:induction false} LogStarts(log: seq<seq<nat>>, stack: seq<nat>, share: nat, j: nat)
    requires Log(log, stack, share, false) && j < |log|
    ensures Total(log[..j]) == j * share
  {
    hide Log;
    if j > 0 {
      LogStarts(log, stack, share, j - 1);
      LogWidth(log, stack, share, j - 1);
      assert log[..j] == log[..j - 1] + [log[j - 1]];
      TotalMore(log[..j - 1], log[j - 1]);
      Distributes(j - 1, share, 1);
    }
  }

  lemma Distributes(q: nat, share: nat, more: nat)
    ensures (q + more) * share == q * share + more * share
  {
  }

  lemma Exceeds(q: nat, last: nat, share: nat)
    requires q > last
    ensures q * share >= last * share + share
  {
    Distributes(last, share, q - last);
    assert (q - last) * share >= share;
  }

  /** Number n lies in the chunk n / share, if all chunks but the last are of this width. */
  lemma ChunkOf(n: nat, share: nat, last: nat, rest: nat, q: nat, r: nat)
    requires share > 0 && n < last * share + rest && rest <= share && q == n / share && r == n % share
    ensures n == q * share + r && q <= last && r < share && (q == last ==> r < rest)
  {
    if q > last {
      Exceeds(q, last, share);
    }
  }

  /** Request n + 1 belongs to chunk n / share, and there to container n % share. */
  lemma FlatIs(log: seq<seq<nat>>, stack: seq<nat>, share: nat, n: nat, q: nat, r: nat)
    requires Log(log, stack, share, false) && n < Total(log) && share > 0 && q == n / share && r == n % share
    requires log != []
    ensures n == q * share + r && q < |log| && r < |log[q]| && Flat(log)[n] == log[q][r]
  {
    hide Log, Flat, Total;
    var last := |log| - 1;
    FlatStarts(log, stack, share, last);
    ChunkOf(n, share, last, |log[last]|, q, r);
    FlatPlace(log, stack, share, q, r, n - r);
  }

  /** All chunks but the last have as many requests as there are containers. */
  lemma FlatStarts(log: seq<seq<nat>>, stack: seq<nat>, share: nat, last: nat)
    requires Log(log, stack, share, false) && last == |log| - 1
    ensures Total(log) == last * share + |log[last]| && |log[last]| <= share
  {
    hide Log;
    LogStarts(log, stack, share, last);
    assert log == log[..last] + [log[last]];
    TotalMore(log[..last], log[last]);
    LogWidth(log, stack, share, last);
  }

  lemma FlatPlace(log: seq<seq<nat>>, stack: seq<nat>, share: nat, q: nat, r: nat, start: nat)
    requires Log(log, stack, share, false) && q < |log| && r < share && (q == |log| - 1 ==> r < |log[q]|)
    requires start == q * share
    ensures r < |log[q]| && start + r < |Flat(log)| && Flat(log)[start + r] == log[q][r]
  {
    hide Log;
    LogWidth(log, stack, share, q);
    LogStarts(log, stack, share, q);
    FlatAt(log, q, r);
  }

  lemma RunsApart(log: seq<seq<nat>>, stack: seq<nat>, share: nat, first: nat, ran: seq<Tried>, i: nat, j: nat)
    requires Log(log, stack, share, false) && share > 0 && Distinct(stack)
    requires RanIn(ran, 0, [first] + Flat(log)) && i < j < |ran| && ran[i].k > 0 && ran[j].k > 0 && log != []
    ensures ran[i].box in stack[|stack| - share..]
    ensures (ran[i].k - 1) / share == (ran[j].k - 1) / share ==> ran[i].box != ran[j].box
  {
    hide Log, Flat, Total;
    var m, n := ran[i].k - 1, ran[j].k - 1;
    assert ran[i].box == Flat(log)[m] && ran[j].box == Flat(log)[n] && ran[i].k != ran[j].k;
    FlatIs(log, stack, share, m, m / share, m % share);
    FlatIs(log, stack, share, n, n / share, n % share);
    LogApart(log, stack, share, m / share);
    assert log[m / share][m % share] in log[m / share];
  }

  /** The first container and those taken after it are the batch's share. */
  lemma FirstHands(stack: seq<nat>, m: nat)
    requires stack != []
    ensures var more := Min(if m > 0 then m - 1 else 0, |stack| - 1);
      && [stack[|stack| - 1]] + Popped(stack[..|stack| - 1], more) == Hands(stack, Share(m, |stack|), 0)
      && stack[..|stack| - 1][..|stack| - 1 - more] == stack[..|stack| - Share(m, |stack|)]
  {
  }

  /** Alone, before chunk j: the batch has its share, and the rest of its stack is in the pool. */
  ghost predicate Settled(entry: Pool, pool: Pool, key: string, stack: seq<nat>, m: nat, j: nat, containers: seq<nat>) {
    var share := Share(m, |stack|);
    && share <= |stack| && containers == Hands(stack, share, j) && key in entry && entry[key] == stack
    && Restacked(entry, pool, key, stack[..|stack| - share])
  }

  lemma SettledShort(entry: Pool, pool: Pool, key: string, stack: seq<nat>, m: nat, j: nat, containers: seq<nat>)
    ensures Settled(entry, pool, key, stack, m, j, containers) ==>
      key in pool && |pool[key]| < |stack| && Short(entry, pool, key)
  {
  }

  /** A container taken, and perhaps handed back. */
  lemma TakenShort(entry: Pool, key: string, c: nat)
    requires Take(entry, key).1 == Some(c)
    ensures Short(entry, Take(entry, key).0, key) && SameBut(entry, Take(entry, key).0, key)
    ensures Give(Take(entry, key).0, key, c) == entry
  {
    TakenAndGiven(entry, key, c);
  }

  lemma FillSettles(entry: Pool, pool: Pool, pool': Pool, key: string, m: nat, box: nat, containers: seq<nat>)
    requires Take(entry, key) == (pool, Some(box))
    requires var more := Min(if m > 0 then m - 1 else 0, |pool[key]|);
      containers == [box] + Popped(pool[key], more) && Restacked(pool, pool', key, pool[key][..|pool[key]| - more])
    ensures Settled(entry, pool', key, entry[key], m, 0, containers)
  {
    FirstHands(entry[key], m);
  }

  /** A share of one container, put back, leaves the stack as it was. */
  lemma OneHandBack(entry: Pool, pool: Pool, pool': Pool, key: string, stack: seq<nat>, j: nat, mine: seq<nat>)
    requires Settled(entry, pool, key, stack, 0, j, mine) && Restacked(pool, pool', key, pool[key] + mine)
    ensures pool' == entry
  {
    assert pool'[key] == entry[key];
  }

  /** After so many chunks the share lies on the stack again, in the order of the last chunk. */
  ghost predicate Returned(entry: Pool, pool: Pool, key: string, m: nat, chunks: nat) {
    if chunks == 0 then pool == entry
    else
      && SameBut(entry, pool, key) && key in entry
      && var share := Share(m, |entry[key]|);
         share <= |entry[key]| && pool[key] == entry[key][..|entry[key]| - share] + Hands(entry[key], share, chunks - 1)
  }

  lemma StackBack(stack: seq<nat>, share: nat, j: nat, stack': seq<nat>)
    requires share <= |stack| && stack' == stack[..|stack| - share] + Hands(stack, share, j)
    ensures multiset(stack') == multiset(stack)
  {
    HandsBack(stack, share, j);
  }

  lemma ReturnedBack(entry: Pool, pool: Pool, key: string, m: nat, chunks: nat)
    requires Returned(entry, pool, key, m, chunks) && key in entry
    ensures multiset(pool[key]) == multiset(entry[key])
  {
    if chunks > 0 {
      StackBack(entry[key], Share(m, |entry[key]|), chunks - 1, pool[key]);
    }
  }

  lemma ReturnedSame(entry: Pool, pool: Pool, key: string, m: nat, chunks: nat)
    requires Returned(entry, pool, key, m, chunks) && Even(chunks)
    ensures pool == entry
  {
    if chunks > 0 {
      OddHandsBack(entry[key], Share(m, |entry[key]|), chunks - 1);
      assert pool[key] == entry[key];
    }
  }

  /** The chunks are all the requests after the first, unless that one failed. */
  predicate Covered(c: Call, results: seq<Visible>, m: nat, log: seq<seq<nat>>) {
    && |results| == Count(c)
    && if results[0].exitCode == 0 then Total(log) == |c.rest| && (m == 0 ==> Count(c) <= 2) else log == []
  }

  /**
   * A batch with the executor to itself: which containers ran each chunk, when it faults, and in which order its
   * stack is left behind. It goes on to chunks if and only if its first result has exit code 0.
   */
  ghost predicate Undisturbed(c: Call, out: Outcome, log: seq<seq<nat>>, permits: nat, entry: Pool, pool: Pool) {
    var key := KeyOf(ProgOf(c));
    var m := Min(permits, |c.rest|);
    && SameBut(entry, pool, key)
    && (out.Fault? ==> m == 0 && Count(c) >= 3 && pool == entry)
    && (out.Err? ==> (pool == entry && log == []) || Short(entry, pool, key))
    && (log != [] ==> key in entry && Log(log, entry[key], Share(m, |entry[key]|), false))
    && (out.Ok? ==> Covered(c, out.results, m, log) && Returned(entry, pool, key, m, |log|))
  }

  /** The same, in terms of the chunk loop. */
  ghost predicate LoopUndisturbed(c: Call, m: nat, out: Outcome, log: seq<seq<nat>>, stack: seq<nat>, entry: Pool,
          pool: Pool) {
    var share := Share(m, |stack|);
    && SameBut(entry, pool, KeyOf(ProgOf(c)))
    && (out.Fault? ==> m == 0 && Count(c) >= 3 && pool == entry) && (m == 0 && Count(c) >= 3 ==> !out.Ok?)
    && Log(log, stack, share, false) && (out.Ok? ==> Total(log) == |c.rest|)
    && (out.Err? ==> KeyOf(ProgOf(c)) in pool && |pool[KeyOf(ProgOf(c))]| < |stack|)
    && (out.Ok? ==> Restacked(entry, pool, KeyOf(ProgOf(c)),
                              stack[..|stack| - share] + Hands(stack, share, if log == [] then 0 else |log| - 1)))
  }

  /** The same, when `done` requests have their result. */
  ghost predicate UndisturbedSoFar(c: Call, m: nat, done: nat, log: seq<seq<nat>>, stack: seq<nat>,
          containers: seq<nat>, entry: Pool, pool: Pool) {
    var key, n := KeyOf(ProgOf(c)), Count(c);
    && SameBut(entry, pool, key) && Log(log, stack, Share(m, |stack|), done < n)
    && (m == 0 ==> done <= 2 && (done == 2 < n ==> containers == [] && pool == entry))
    && (done < n && containers == [] ==> m == 0)
    && (done < n && containers != [] ==> Settled(entry, pool, key, stack, m, |log|, containers))
    && (done == n ==> Settled(entry, pool, key, stack, m, if log == [] then 0 else |log| - 1, containers))
  }

  /** What a round starts from, and what it adds to the log. */
  lemma RoundStarts(c: Call, m: nat, done: nat, log: seq<seq<nat>>, stack: seq<nat>, mine: seq<nat>, entry: Pool,
          pool: Pool, width: nat)
    requires done < Count(c) && mine != []
    ensures UndisturbedSoFar(c, m, done, log, stack, mine, entry, pool) && width == |mine| ==>
      && SameBut(entry, pool, KeyOf(ProgOf(c))) && Settled(entry, pool, KeyOf(ProgOf(c)), stack, m, |log|, mine)
      && Log(log + [Used(mine, Min(width, Count(c) - done))], stack, Share(m, |stack|), done + width < Count(c))
  {
    if UndisturbedSoFar(c, m, done, log, stack, mine, entry, pool) && width == |mine| {
      LogMore(log, stack, Share(m, |stack|), Min(width, Count(c) - done), done + width < Count(c));
    }
  }

  /** A round with the executor to itself leaves it so. */
  lemma RoundEnds(c: Call, m: nat, done: nat, past: seq<seq<nat>>, stack: seq<nat>, mine: seq<nat>, entry: Pool,
          pool: Pool, width: nat, done': nat, log: seq<seq<nat>>, containers: seq<nat>, pool': Pool)
    requires done < Count(c) && mine != [] && |log| == |past| + 1 && done' == Min(done + width, Count(c))
    ensures
      && UndisturbedSoFar(c, m, done, past, stack, mine, entry, pool) && width == |mine|
      && Log(log, stack, Share(m, |stack|), done + width < Count(c))
      && (done' == Count(c) ==> containers == mine && pool' == pool)
      && (done' < Count(c) ==> SameBut(entry, pool', KeyOf(ProgOf(c))))
      && (done' < Count(c) && m == 0 ==> containers == [] && pool' == entry)
      && (done' < Count(c) && m > 0 ==>
        Settled(entry, pool', KeyOf(ProgOf(c)), stack, m, |past| + 1, containers)) ==>
        UndisturbedSoFar(c, m, done', log, stack, containers, entry, pool')
  {
  }

  /** Before the first round. */
  lemma RoundsStart(c: Call, m: nat, stack: seq<nat>, mine: seq<nat>, entry: Pool, pool: Pool)
    requires mine != []
    ensures Settled(entry, pool, KeyOf(ProgOf(c)), stack, m, 0, mine) ==>
      UndisturbedSoFar(c, m, 1, [], stack, mine, entry, pool) && |mine| == Share(m, |stack|)
  {
  }

  /** All chunks have the width of the first. */
  lemma RoundsWidth(c: Call, m: nat, done: nat, log: seq<seq<nat>>, stack: seq<nat>, containers: seq<nat>,
          entry: Pool, pool: Pool)
    requires done < Count(c) && containers != []
    ensures UndisturbedSoFar(c, m, done, log, stack, containers, entry, pool) ==>
      |containers| == Share(m, |stack|)
  {
  }

  /** After the last one: the batch faults for want of a container, or hands its containers back. */
  lemma RoundsFault(c: Call, m: nat, done: nat, log: seq<seq<nat>>, stack: seq<nat>, entry: Pool, pool: Pool)
    requires 1 < done < Count(c)
    ensures UndisturbedSoFar(c, m, done, log, stack, [], entry, pool) ==>
      LoopUndisturbed(c, m, Fault, log, stack, entry, pool)
  {
  }

  lemma RoundsErr(c: Call, m: nat, log: seq<seq<nat>>, stack: seq<nat>, entry: Pool, pool: Pool, more: bool)
    requires KeyOf(ProgOf(c)) in pool && |pool[KeyOf(ProgOf(c))]| < |stack|
    ensures SameBut(entry, pool, KeyOf(ProgOf(c))) && Log(log, stack, Share(m, |stack|), more) ==>
      LoopUndisturbed(c, m, Err, log, stack, entry, pool)
  {
  }

  lemma RoundsEnd(c: Call, m: nat, results: seq<Visible>, log: seq<seq<nat>>, stack: seq<nat>, mine: seq<nat>,
          entry: Pool, pool: Pool, pool': Pool)
    requires |results| == Count(c)
    requires Total(log) == |c.rest| && KeyOf(ProgOf(c)) in pool
    requires Restacked(pool, pool', KeyOf(ProgOf(c)), pool[KeyOf(ProgOf(c))] + mine)
    ensures UndisturbedSoFar(c, m, Count(c), log, stack, mine, entry, pool) ==>
      LoopUndisturbed(c, m, Ok(results), log, stack, entry, pool')
  {
  }

  lemma LoopIsUndisturbed(c: Call, out: Outcome, log: seq<seq<nat>>, permits: nat, entry: Pool, pool: Pool)
    requires KeyOf(ProgOf(c)) in entry && entry[KeyOf(ProgOf(c))] != []
    requires out.Ok? ==> |out.results| == Count(c) && out.results[0].exitCode == 0
    ensures LoopUndisturbed(c, Min(permits, |c.rest|), out, log, entry[KeyOf(ProgOf(c))], entry, pool) ==>
      && Undisturbed(c, out, log, permits, entry, pool)
      && (out.Fault? ==> permits == 0 && Count(c) >= 3) && (permits == 0 && Count(c) >= 3 ==> !out.Ok?)
  {
    if out.Ok? && log == [] {
      FirstHands(entry[KeyOf(ProgOf(c))], 0);
      if LoopUndisturbed(c, Min(permits, |c.rest|), out, log, entry[KeyOf(ProgOf(c))], entry, pool) {
        assert pool[KeyOf(ProgOf(c))] == entry[KeyOf(ProgOf(c))];
      }
    }
  }

  lemma FailedEarly(c: Call, permits: nat, entry: Pool, pool: Pool)
    ensures SameBut(entry, pool, KeyOf(ProgOf(c))) && (pool == entry || Short(entry, pool, KeyOf(ProgOf(c)))) ==>
      Undisturbed(c, Err, [], permits, entry, pool)
  {
  }

  lemma EndedEarly(c: Call, results: seq<Visible>, permits: nat, entry: Pool)
    requires |results| == Count(c) && results[0].exitCode != 0
    ensures Undisturbed(c, Ok(results), [], permits, entry, entry)
  {
  }

  /** Such a batch, if it ends well, has handed every container back: only their order on its stack may differ. */
  lemma UndisturbedReturns(c: Call, out: Outcome, log: seq<seq<nat>>, permits: nat, entry: Pool, pool: Pool)
    requires Undisturbed(c, out, log, permits, entry, pool) && out.Ok? && KeyOf(ProgOf(c)) in entry
    ensures SameBut(entry, pool, KeyOf(ProgOf(c)))
    ensures multiset(pool[KeyOf(ProgOf(c))]) == multiset(entry[KeyOf(ProgOf(c))])
  {
    ReturnedBack(entry, pool, KeyOf(ProgOf(c)), Min(permits, |c.rest|), |log|);
  }

  /** After an even number of chunks they lie as before. */
  lemma UndisturbedEven(c: Call, out: Outcome, log: seq<seq<nat>>, permits: nat, entry: Pool, pool: Pool)
    requires Undisturbed(c, out, log, permits, entry, pool) && out.Ok? && Even(|log|)
    ensures pool == entry
  {
    ReturnedSame(entry, pool, KeyOf(ProgOf(c)), Min(permits, |c.rest|), |log|);
  }

  /**
   * In such a batch no two requests of a chunk run on one container, and all run on containers from the top
   * of the stack; request k > 0 belongs to chunk (k - 1) / share.
   */
  lemma UndisturbedApart(c: Call, out: Outcome, log: seq<seq<nat>>, permits: nat, entry: Pool, pool: Pool,
          first: nat, ran: seq<Tried>, i: nat, j: nat)
    requires Undisturbed(c, out, log, permits, entry, pool) && RanIn(ran, 0, [first] + Flat(log))
    requires KeyOf(ProgOf(c)) in entry && Distinct(entry[KeyOf(ProgOf(c))]) && i < j < |ran|
    requires ran[i].k > 0 && ran[j].k > 0
    ensures var stack := entry[KeyOf(ProgOf(c))];
      var share := Share(Min(permits, |c.rest|), |stack|);
      && share <= |stack| && ran[i].box in stack[|stack| - share..]
      && ((ran[i].k - 1) / share == (ran[j].k - 1) / share ==> ran[i].box != ran[j].box)
  {
    var stack := entry[KeyOf(ProgOf(c))];
    assert Total([]) == 0 && ran[i].k < 1 + |Flat(log)|;
    RunsApart(log, stack, Share(Min(permits, |c.rest|), |stack|), first, ran, i, j);
  }
}
