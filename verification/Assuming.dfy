/**
 Assuming the admitted new tasks in the cache, and taking that back when one of them
 cannot be assumed.
*/
module Assuming {

  import opened BinderTypes
  import opened BindingUnit
  import opened Caches
  import opened Workflow

  type Queued = map<Uid, QueuedPod>
  type States = map<Uid, PodState>

  /** Exactly the tasks `done` of `tasks` have been assumed, on their nodes, since `q0` and `s0`. */
  ghost predicate AssumedSo(tasks: map<Uid, Task>, done: set<Uid>, q0: Queued, q: Queued, s0: States, s: States) {
    && done <= tasks.Keys
    && q.Keys == q0.Keys
    && s.Keys == s0.Keys + done
    && done !! s0.Keys
    && (forall u :: u in s0 ==> s[u] == s0[u])
    && (forall u :: u in done ==> s[u] == PodState(tasks[u].node, true))
    && (forall u :: u in done && u in q ==> q[u] == QueuedPod(Some(tasks[u].node), true))
    && (forall u :: u in q && u !in done ==> q[u].inHandling == q0[u].inHandling)
    && (forall u :: u in q && u !in tasks ==> q[u] == q0[u])
  }

  lemma OneAssumed(tasks: map<Uid, Task>, done: set<Uid>, q0: Queued, q: Queued, s0: States, s: States, u: Uid)
    requires AssumedSo(tasks, done, q0, q, s0, s)
    requires u in tasks && u in q && u !in done && u !in s
    ensures AssumedSo(tasks, done + {u}, q0, q[u := QueuedPod(Some(tasks[u].node), true)], s0,
                      s[u := PodState(tasks[u].node, true)])
  {
  }

  /** Assumes the tasks one by one and stops at the first that cannot be assumed. */
  method AssumeNewTasks(binder: Binder, tasks: map<Uid, Task>, volumesOk: Uid -> bool, storesOk: Uid -> bool)
    returns (ok: bool, ghost done: set<Uid>)
    requires binder.cache.Valid() && tasks.Keys <= binder.queued.Keys
    modifies binder`queued, binder.cache`nodes, binder.cache`states
    ensures binder.cache.Valid()
    ensures AssumedSo(tasks, done, old(binder.queued), binder.queued, old(binder.cache.states), binder.cache.states)
    ensures ok ==> done == tasks.Keys
    ensures ok <==> forall u :: u in tasks ==> volumesOk(u) && storesOk(u) && u !in old(binder.cache.states)
  {
    hide AssumedSo, NodesAgree;
    ghost var q0, s0 := binder.queued, binder.cache.states;
    var todo := tasks.Keys;
    done := {};
    StartAssuming(tasks, q0, s0);
    while todo != {}
      invariant binder.cache.Valid() && todo <= tasks.Keys && done == tasks.Keys - todo
      invariant binder.queued.Keys == q0.Keys
      invariant AssumedSo(tasks, done, q0, binder.queued, s0, binder.cache.states)
      invariant forall u :: u in done ==> volumesOk(u) && storesOk(u) && u !in s0
    {
      var u :| u in todo;
      NotYet(tasks, done, q0, binder.queued, s0, binder.cache.states, u);
      if !volumesOk(u) {
        return false, done;
      }
      ghost var q, s := binder.queued, binder.cache.states;
      binder.queued := binder.queued[u := binder.queued[u].(reserved := Some(tasks[u].node))];
      ok := binder.cache.AssumePod(u, tasks[u].node, storesOk(u));
      if !ok {
        ReservedOnly(tasks, done, q0, q, s0, s, u);
        return false, done;
      }
      OneAssumed(tasks, done, q0, q, s0, s, u);
      binder.queued := binder.queued[u := binder.queued[u].(inHandling := true)];
      assert binder.queued == q[u := QueuedPod(Some(tasks[u].node), true)];
      done := done + {u};
      todo := todo - {u};
    }
    ok := true;
  }

  lemma StartAssuming(tasks: map<Uid, Task>, q0: Queued, s0: States)
    ensures AssumedSo(tasks, {}, q0, q0, s0, s0)
  {
  }

  lemma NotYet(tasks: map<Uid, Task>, done: set<Uid>, q0: Queued, q: Queued, s0: States, s: States, u: Uid)
    requires AssumedSo(tasks, done, q0, q, s0, s) && u !in done
    ensures u in s <==> u in s0
  {
  }

  lemma ReservedOnly(tasks: map<Uid, Task>, done: set<Uid>, q0: Queued, q: Queued, s0: States, s: States, u: Uid)
    requires AssumedSo(tasks, done, q0, q, s0, s) && u in tasks && u in q && u !in done
    ensures AssumedSo(tasks, done, q0, q[u := q[u].(reserved := Some(tasks[u].node))], s0, s)
  {
  }

  /**
   Forgets the tasks that were assumed in this attempt. If every forget succeeds, the cache
   holds exactly the pods it held before any of them was assumed.
  */
  method ForgetNewAssumedTasks(
    binder: Binder, tasks: map<Uid, Task>, forgetOk: Uid -> bool,
    ghost done: set<Uid>, ghost q0: Queued, ghost s0: States)
    returns (ghost left: set<Uid>)
    requires binder.cache.Valid() && tasks.Keys <= binder.queued.Keys
    requires AssumedSo(tasks, done, q0, binder.queued, s0, binder.cache.states)
    requires done <= tasks.Keys <= q0.Keys
    requires forall u :: u in tasks ==> !q0[u].inHandling
    modifies binder`queued, binder.cache`nodes, binder.cache`states
    ensures binder.cache.Valid()
    ensures AssumedSo(tasks, left, q0, binder.queued, s0, binder.cache.states)
    ensures left == set u | u in done && !forgetOk(u)
    ensures (forall u :: u in tasks ==> forgetOk(u)) ==> binder.cache.states == s0
  {
    hide AssumedSo, NodesAgree;
    var todo := tasks.Keys;
    left := done;
    while todo != {}
      invariant binder.cache.Valid() && todo <= tasks.Keys && tasks.Keys <= binder.queued.Keys
      invariant AssumedSo(tasks, left, q0, binder.queued, s0, binder.cache.states)
      invariant left == set u | u in done && (u in todo || !forgetOk(u))
    {
      var u :| u in todo;
      ghost var q, s := binder.queued, binder.cache.states;
      HandlingIsDone(tasks, left, q0, q, s0, s, u);
      if binder.queued[u].inHandling && binder.queued[u].reserved.Some? {
        var ok := binder.cache.ForgetPod(u, forgetOk(u));
        if ok {
          OneForgotten(tasks, left, q0, q, s0, s, u);
          binder.queued := binder.queued[u := QueuedPod(None, false)];
          left := left - {u};
        }
      }
      todo := todo - {u};
    }
    InTasks(tasks, done, left, forgetOk, q0, binder.queued, s0, binder.cache.states);
  }

  lemma HandlingIsDone(tasks: map<Uid, Task>, done: set<Uid>, q0: Queued, q: Queued, s0: States, s: States, u: Uid)
    requires AssumedSo(tasks, done, q0, q, s0, s) && u in tasks && u in q && !q0[u].inHandling
    ensures u in q0 && (q[u].inHandling <==> u in done)
    ensures u in done ==> q[u].reserved.Some? && u in s && s[u].assumed
  {
  }

  lemma OneForgotten(tasks: map<Uid, Task>, done: set<Uid>, q0: Queued, q: Queued, s0: States, s: States, u: Uid)
    requires AssumedSo(tasks, done, q0, q, s0, s) && u in done && u in q && !q0[u].inHandling
    ensures AssumedSo(tasks, done - {u}, q0, q[u := QueuedPod(None, false)], s0, s - {u})
  {
  }

  lemma InTasks(
    tasks: map<Uid, Task>, done: set<Uid>, left: set<Uid>, forgetOk: Uid -> bool,
    q0: Queued, q: Queued, s0: States, s: States)
    requires AssumedSo(tasks, left, q0, q, s0, s)
    requires left == set u | u in done && !forgetOk(u)
    ensures (forall u :: u in tasks ==> forgetOk(u)) ==> s == s0
  {
    if forall u :: u in tasks ==> forgetOk(u) {
      assert left == {};
    }
  }
}
