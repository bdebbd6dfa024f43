/**
 * The keyed priority queues of waiting tasks.
 */
module Queue {
  import opened Options
  import opened Platform

  /** A task's id; ids are made fresh for every task. */
  type TaskId = string

  /** u8 */
  newtype Priority = x: int | 0 <= x < 256

  type Waiting = map<TaskId, Priority>

  /** What waits under a key. */
  function WaitingAt(inner: map<string, Waiting>, key: string): Waiting {
    if key in inner then inner[key] else map[]
  }

  /** No waiting task has a higher priority. */
  predicate First(waiting: Waiting, id: TaskId) {
    id in waiting && forall x :: x in waiting ==> waiting[x] <= waiting[id]
  }

  lemma {:induction false} FirstExists(waiting: Waiting)
    requires waiting != map[]
    ensures exists id :: First(waiting, id)
    decreases |waiting|
  {
    var some :| some in waiting;
    var rest := waiting - {some};
    if rest == map[] {
      assert forall x :: x in waiting && x != some ==> x in rest;
      assert First(waiting, some);
    } else {
      assert |rest.Keys| < |waiting.Keys| by { assert rest.Keys == waiting.Keys - {some}; }
      FirstExists(rest);
      var top :| First(rest, top);
      assert forall x :: x in waiting && x != some ==> x in rest;
      if waiting[top] < waiting[some] {
        assert First(waiting, some);
      } else {
        assert First(waiting, top);
      }
    }
  }

  class ExecutionQueue {
    var inner: map<string, Waiting>

    constructor ()
      ensures inner == map[]
    {
      inner := map[];
    }

    method Enqueue(id: TaskId, lang: string, ver: string, priority: Priority)
      modifies this
      ensures inner == old(inner)[PoolKey(lang, ver) := WaitingAt(old(inner), PoolKey(lang, ver))[id := priority]]
    {
      var key := lang + ":" + ver;
      if key !in inner {
        inner := inner[key := map[]];
      }
      inner := inner[key := inner[key][id := priority]];
    }

    /** One round of the loop in `dequeue`: some task of the highest priority is taken, if any waits. */
    method TryDequeue(lang: string, ver: string) returns (r: Option<TaskId>)
      modifies this
      ensures r.None? <==> WaitingAt(old(inner), PoolKey(lang, ver)) == map[]
      ensures r.None? ==> inner == old(inner)
      ensures r.Some? ==> var waiting := WaitingAt(old(inner), PoolKey(lang, ver));
        r.value in waiting && forall x :: x in waiting ==> waiting[x] <= waiting[r.value]
      ensures r.Some? ==> inner == old(inner)[PoolKey(lang, ver) := WaitingAt(old(inner),
        PoolKey(lang, ver)) - {r.value}]
    {
      var key := lang + ":" + ver;
      r := None;
      if key in inner && inner[key] != map[] {
        FirstExists(inner[key]);
        var id :| First(inner[key], id);
        inner := inner[key := inner[key] - {id}];
        r := Some(id);
      }
    }

    method Remove(id: TaskId, lang: string, ver: string)
      modifies this
      ensures WaitingAt(inner, PoolKey(lang, ver)) == WaitingAt(old(inner), PoolKey(lang, ver)) - {id}
      ensures inner.Keys == old(inner.Keys) && forall k :: k in inner && k != PoolKey(lang, ver) ==>
        inner[k] == old(inner)[k]
    {
      var key := lang + ":" + ver;
      if key in inner {
        inner := inner[key := inner[key] - {id}];
      }
    }
  }
}
