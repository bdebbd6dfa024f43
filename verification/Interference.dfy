/**
 * What a call can rely on while others move: the link between the runs of the engine and the methods of
 * the executor, in which other calls act between any two operations.
 */
module Interference {
  import opened Platform
  import opened Store
  import opened Custody
  import opened Engine
  import opened Invariants
  import opened Shares
  import opened Outcomes

  import Moves
  import Reachability

  /** The event is a move of this call, or cancels it. */
  predicate Of(e: Event, id: nat) {
    (e.Act? || e.Cancel?) && e.id == id
  }

  /** What the call relies on, in this state of the engine. */
  ghost predicate Relies(w: World, bad: set<Prog>, s: State, id: nat)
    requires id < |s.calls|
  {
    InOrder(w, bad, w.home, KeyOf(ProgOf(s.calls[id])), HeldOf(s, id), s.redis, s.files, s.cu.pool)
  }

  /** From one state to the other nothing of the call has changed, nor the files of its containers. */
  ghost predicate LeftAlone(s: State, s': State, id: nat) {
    && id < |s.calls| && id < |s'.calls| && s'.calls[id] == s.calls[id]
    && HeldOf(s', id) == HeldOf(s, id) && Untouched(HeldOf(s, id), s.files, s'.files)
  }

  lemma PooledApart(cu: Custody, home: map<nat, string>, id: nat, mine: seq<nat>, key: string)
    requires Placed(cu, home) && (mine == [] || (id in cu.held && mine == cu.held[id]))
    requires forall x :: x in mine ==> x in home && home[x] == key
    requires cu.pool.Keys == PoolKeys()
    ensures Stocked(cu.pool, mine, key, home)
  {
    forall k | k in cu.pool ensures Shelf(cu.pool[k], k, mine, home) {
      forall x | x in cu.pool[k] ensures x !in mine {
        assert cu.place[x] == InPool;
      }
    }
    if mine != [] {
      assert mine[0] in mine;
    }
  }

  /** In every state that keeps the invariant every call can rely on that. */
  lemma CallRelies(w: World, bad: set<Prog>, s: State, id: nat)
    requires Inv(w, s) && id < |s.calls| && s.stale <= bad
    ensures Relies(w, bad, s, id)
  {
    assert CallOk(w, s, id);
    PooledApart(s.cu, w.home, id, HeldOf(s, id), KeyOf(ProgOf(s.calls[id])));
    StoreGrows(w, s.stale, bad, s.redis);
  }

  lemma OtherMoved(w: World, s: State, s': State, j: nat, id: nat)
    requires CustodyOk(w, s.cu) && Touches(s, s', j) && Moves.CustodyStep(w, s.cu, s'.cu, j)
    requires id != j && id < |s.calls|
    ensures LeftAlone(s, s', id) && s.stale <= s'.stale
  {
    hide CallOk, StoreOk, CustodyOk;
    Moves.HeldApart(w, s, j, id);
    assert Moves.SameFor(s.cu, s'.cu, id);
  }

  lemma StepLeaves(w: World, s: State, e: Event, id: nat)
    requires WorldOk(w) && Inv(w, s) && Enabled(s, e) && !Of(e, id) && id < |s.calls|
    ensures LeftAlone(s, Step(w, s, e), id) && s.stale <= Step(w, s, e).stale
  {
    var s' := Step(w, s, e);
    match e
    case Spawn(_, _, _) =>
    case Evict(_) =>
    case Act(j, how, slot) =>
      Reachability.KnowsBefore(w, s, j);
      Moves.MovedCustody(w, s, j, how, slot);
      OtherMoved(w, s, s', j, id);
    case Cancel(j) =>
      if j in s.cu.held {
        Moves.AbandonStep(w, s, j);
        OtherMoved(w, s, s', j, id);
      }
  }

  /** A program that is spoilt stays so. */
  lemma {:induction false} StaleOnly(w: World, trace: seq<State>, events: seq<Event>, i: nat, j: nat)
    requires Run(w, trace, events) && i <= j < |trace|
    ensures trace[i].stale <= trace[j].stale
  {
    if i < j {
      StaleOnly(w, trace, events, i, j - 1);
      var s, e := trace[j - 1], events[j - 1];
      assert trace[j - 1 + 1] == Step(w, s, e);
      assert s.stale <= Step(w, s, e).stale;
    }
  }
  lemma LeftAloneOn(s: State, s1: State, s2: State, id: nat)
    requires LeftAlone(s, s1, id) && LeftAlone(s1, s2, id)
    ensures LeftAlone(s, s2, id)
  {
  }

  lemma {:induction false} OthersLeave(w: World, trace: seq<State>, events: seq<Event>, i: nat, j: nat, id: nat)
    requires WorldOk(w) && Run(w, trace, events) && i <= j < |trace| && id < |trace[i].calls|
    requires forall k :: i <= k < j ==> !Of(events[k], id)
    ensures LeftAlone(trace[i], trace[j], id)
  {
    hide Inv, WorldOk, Step, Enabled, LeftAlone, Init;
    if i == j {
      AloneByItself(trace[i], id);
    } else {
      OthersLeave(w, trace, events, i, j - 1, id);
      KnowsOf(trace[i], trace[j - 1], id);
      Reachability.RunKeeps(w, trace, events, j - 1);
      StepLeaves(w, trace[j - 1], events[j - 1], id);
      assert trace[j - 1 + 1] == Step(w, trace[j - 1], events[j - 1]);
      LeftAloneOn(trace[i], trace[j - 1], trace[j], id);
    }
  }

  lemma AloneByItself(s: State, id: nat)
    requires id < |s.calls|
    ensures LeftAlone(s, s, id)
  {
  }

  lemma KnowsOf(s: State, s': State, id: nat)
    requires LeftAlone(s, s', id)
    ensures id < |s'.calls|
  {
  }

  /**
   * Whatever happens in a run between two moves of a call, its containers are as it left them, and it can
   * rely on the rest: on the store for all programs that are not spoilt then, and on the pool.
   */
  lemma OthersMove(w: World, trace: seq<State>, events: seq<Event>, i: nat, j: nat, id: nat, bad: set<Prog>)
    requires WorldOk(w) && Run(w, trace, events) && i <= j < |trace| && id < |trace[i].calls|
    requires (forall k :: i <= k < j ==> !Of(events[k], id)) && trace[j].stale <= bad
    ensures LeftAlone(trace[i], trace[j], id)
    ensures Relies(w, bad, trace[i], id) && Relies(w, bad, trace[j], id)
  {
    hide Inv, WorldOk, Step, Enabled, Relies, Init;
    OthersLeave(w, trace, events, i, j, id);
    StaleOnly(w, trace, events, i, j);
    Reachability.RunKeeps(w, trace, events, i);
    CallRelies(w, bad, trace[i], id);
    Reachability.RunKeeps(w, trace, events, j);
    CallRelies(w, bad, trace[j], id);
  }
}
