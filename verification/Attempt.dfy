/**
 A whole binding attempt, from the queued unit to the pods that are bound, put back in the
 queue or rejected.
*/
module Attempt {

  import opened BinderTypes
  import opened Placements
  import opened UnitLists
  import opened BindingUnit
  import opened Caches
  import opened SameNode
  import opened Workflow
  import opened Marking
  import opened Assuming

  /** The marks that remain when the failed tasks give up theirs. */
  ghost function Released(m: Marks, failed: Infos): Marks {
    map v | v in m && !(m[v] in failed && v in failed[m[v]].task.victims) :: m[v]
  }

  /** A task is held when the queue still owns it and knows the pod reserved for it. */
  ghost predicate Held(queued: Queued, u: Uid) {
    u in queued && queued[u].inHandling && queued[u].reserved.Some?
  }

  /** Every task that may still be bound is held. */
  ghost predicate AllHeld(p: Placement, queued: Queued) {
    forall u :: u in p && (p[u] == Ready || p[u] == Waiting) ==> Held(queued, u)
  }

  /** Unmarks the victims of one failed task. */
  method ReleaseTask(cache: BinderCache, u: Uid, victims: set<Uid>)
    requires cache.Valid()
    modifies cache`markers
    ensures cache.Valid()
    ensures cache.markers ==
      map v | v in old(cache.markers) && !(old(cache.markers)[v] == u && v in victims) :: old(cache.markers)[v]
  {
    hide NodesAgree;
    ghost var m := cache.markers;
    var todo := victims;
    while todo != {}
      invariant cache.Valid() && todo <= victims
      invariant cache.markers == map v | v in m && !(m[v] == u && v in victims - todo) :: m[v]
    {
      var v :| v in todo;
      cache.RemoveDeletePodMarker(v, u);
      todo := todo - {v};
    }
  }

  /** Whether rejecting a failed task makes the cache forget it. */
  ghost predicate IsForgotten(u: Uid, r: CheckResult, queued: Queued, s: States, forgetOk: Uid -> bool) {
    && u in s && s[u].assumed && forgetOk(u)
    && u in queued && queued[u].reserved.Some? && (r.assumed || queued[u].inHandling)
  }

  /** The pods that remain in the cache when the failed tasks are rejected. */
  ghost function Kept(s: States, failed: Infos, queued: Queued, forgetOk: Uid -> bool): States {
    map u | u in s && !(u in failed && IsForgotten(u, failed[u], queued, s, forgetOk)) :: s[u]
  }

  /** Rejects one failed task. */
  method RejectTask(binder: Binder, u: Uid, r: CheckResult, forgetOk: Uid -> bool)
    requires binder.cache.Valid() && u in binder.queued
    modifies binder.cache
    ensures binder.cache.Valid()
    ensures binder.cache.markers == Released(old(binder.cache.markers), map[u := r])
    ensures binder.cache.states == Kept(old(binder.cache.states), map[u := r], binder.queued, forgetOk)
  {
    hide NodesAgree;
    ReleaseTask(binder.cache, u, r.task.victims);
    if r.assumed || binder.queued[u].inHandling {
      if binder.queued[u].reserved.Some? {
        var ok := binder.cache.ForgetPod(u, forgetOk(u));
      }
    }
  }

  lemma ReleasedMore(m: Marks, failed: Infos, u: Uid, r: CheckResult)
    requires u !in failed
    ensures Released(Released(m, failed), map[u := r]) == Released(m, failed[u := r])
  {
  }

  lemma KeptMore(s: States, failed: Infos, queued: Queued, forgetOk: Uid -> bool, u: Uid, r: CheckResult)
    requires u !in failed
    ensures Kept(Kept(s, failed, queued, forgetOk), map[u := r], queued, forgetOk)
         == Kept(s, failed[u := r], queued, forgetOk)
  {
  }

  /**
   Rejects the failed tasks: each gives up the marks it set, and is forgotten by the cache
   if it was assumed there.
  */
  method RejectFailedTasks(binder: Binder, unit: BindingUnitInfo, forgetOk: Uid -> bool)
    requires unit.Valid() && binder.cache.Valid() && unit.place.Keys <= binder.queued.Keys
    modifies binder.cache
    ensures binder.cache.Valid()
    ensures binder.cache.markers == Released(old(binder.cache.markers), unit.failedTasks)
    ensures binder.cache.states == Kept(old(binder.cache.states), unit.failedTasks, binder.queued, forgetOk)
  {
    hide Consistent, NodesAgree, Released, Kept;
    FailedAreKnown(unit);
    ghost var m0, s0 := binder.cache.markers, binder.cache.states;
    var todo, failed := unit.failedTasks.Keys, unit.failedTasks;
    ghost var done: Infos := map[];
    NothingRejected(m0, s0, binder.queued, forgetOk);
    while todo != {}
      invariant binder.cache.Valid() && todo <= failed.Keys
      invariant done == failed - todo
      invariant binder.cache.markers == Released(m0, done)
      invariant binder.cache.states == Kept(s0, done, binder.queued, forgetOk)
    {
      var u :| u in todo;
      RejectOne(binder, u, failed[u], forgetOk, m0, s0, done);
      OneLess(failed, todo, u);
      done, todo := done[u := failed[u]], todo - {u};
    }
    assert failed - {} == failed;
  }

  lemma FailedAreKnown(unit: BindingUnitInfo)
    requires unit.Valid()
    ensures unit.failedTasks.Keys <= unit.place.Keys
  {
    hide Consistent;
    unit.ListsAre();
    unit.KnownInfo();
  }

  lemma OneLess(failed: Infos, todo: set<Uid>, u: Uid)
    requires u in todo && u in failed
    ensures (failed - todo)[u := failed[u]] == failed - (todo - {u}) && u !in failed - todo
  {
  }

  /** One more failed task is rejected. */
  method RejectOne(
    binder: Binder, u: Uid, r: CheckResult, forgetOk: Uid -> bool, ghost m0: Marks, ghost s0: States, ghost done: Infos)
    requires binder.cache.Valid() && u in binder.queued && u !in done
    requires binder.cache.markers == Released(m0, done)
    requires binder.cache.states == Kept(s0, done, binder.queued, forgetOk)
    modifies binder.cache
    ensures binder.cache.Valid()
    ensures binder.cache.markers == Released(m0, done[u := r])
    ensures binder.cache.states == Kept(s0, done[u := r], binder.queued, forgetOk)
  {
    hide NodesAgree, Released, Kept;
    ReleasedMore(m0, done, u, r);
    KeptMore(s0, done, binder.queued, forgetOk, u, r);
    RejectTask(binder, u, r, forgetOk);
  }

  lemma NothingRejected(m: Marks, s: States, queued: Queued, forgetOk: Uid -> bool)
    ensures Released(m, map[]) == m && Kept(s, map[], queued, forgetOk) == s
  {
  }

  /**
   Puts the waiting tasks back into the unit. `fatal` is the exit the code takes when a
   waiting new task was not assumed.
  */
  method ReEnqueueWaitingTasks(binder: Binder, unit: BindingUnitInfo) returns (requeued: set<Uid>, fatal: bool)
    requires unit.Valid() && unit.place.Keys <= binder.queued.Keys
    ensures !fatal ==> requeued == At(unit.place, Waiting)
    ensures fatal <==>
      exists u :: u in At(unit.place, Waiting) && u in unit.info && !unit.info[u].assumed && !Held(binder.queued, u)
  {
    hide Consistent;
    unit.ListsAre();
    unit.KnownInfo();
    requeued, fatal := {}, false;
    var todo := unit.waitingTasks.Keys;
    while todo != {}
      invariant todo <= At(unit.place, Waiting) && requeued == At(unit.place, Waiting) - todo && !fatal
      invariant forall u :: u in requeued && u in unit.info ==> unit.info[u].assumed || Held(binder.queued, u)
    {
      var u :| u in todo;
      var q := binder.queued[u];
      if !unit.waitingTasks[u].assumed && (!q.inHandling || q.reserved.None?) {
        assert u in At(unit.place, Waiting) && u in unit.info && !Held(binder.queued, u);
        return requeued, true;
      }
      requeued := requeued + {u};
      todo := todo - {u};
    }
  }

  /** The admitted new tasks of a unit, as the ready and waiting lists hold them. */
  method NewcomersOf(unit: BindingUnitInfo) returns (tasks: map<Uid, Task>)
    requires unit.Valid()
    ensures tasks.Keys == NewcomersAt(unit.place, unit.info, Ready) + NewcomersAt(unit.place, unit.info, Waiting)
    ensures forall u :: u in tasks ==> u in unit.info && tasks[u] == unit.info[u].task
  {
    hide Consistent;
    unit.ListsAre();
    tasks := map u | u in unit.readyTasks.Keys + unit.waitingTasks.Keys &&
      !(if u in unit.readyTasks then unit.readyTasks[u] else unit.waitingTasks[u]).assumed ::
      (if u in unit.readyTasks then unit.readyTasks[u] else unit.waitingTasks[u]).task;
  }

  /** What is known of a unit before its victims are marked. */
  ghost predicate Checked(p: Placement, info: Infos, queued: Queued, m: Marks) {
    && Assumable(p, info, queued)
    && Exclusive(info)
    && (forall u :: u in p && (p[u] == Ready || p[u] == Waiting) && !info[u].assumed ==>
          info[u].task.victims !! m.Keys)
  }

  /** The cache only gained pods of the unit that are assumed and held. */
  ghost predicate Gained(s0: States, s: States, queued: Queued, pods: set<Uid>) {
    && (forall u :: u in s0 ==> u in s && s[u] == s0[u])
    && (forall u :: u in s && u !in s0 ==> u in pods && s[u].assumed && Held(queued, u))
  }

  /** The cache gained exactly these tasks, each assumed on its node. */
  ghost predicate Grew(s0: States, s: States, info: Infos, left: set<Uid>) {
    && s.Keys == s0.Keys + left && left !! s0.Keys
    && (forall u :: u in s0 ==> s[u] == s0[u])
    && (forall u :: u in left ==> u in info && s[u] == PodState(info[u].task.node, true))
  }

  lemma AssumedGrew(tasks: map<Uid, Task>, left: set<Uid>, q0: Queued, q: Queued, s0: States, s: States, info: Infos)
    requires AssumedSo(tasks, left, q0, q, s0, s)
    requires forall u :: u in tasks ==> u in info && tasks[u] == info[u].task
    ensures left <= tasks.Keys && Grew(s0, s, info, left)
  {
  }

  lemma GrewNothing(s: States, info: Infos)
    ensures Grew(s, s, info, {})
  {
  }

  /** What marking and assuming did: the placement after marking, the nodes it failed, the tasks assumed in the end. */
  datatype Effects = Effects(p1: Placement, failedNodes: set<NodeName>, left: set<Uid>)

  ghost predicate EffectsOk(did: Effects, p0: Placement, info: Infos, m0: Marks, m: Marks, s0: States, s: States) {
    && MarksNodes(p0, did.p1, info, s0, did.failedNodes, m0, m)
    && did.left <= NewcomersAt(did.p1, info, Ready) + NewcomersAt(did.p1, info, Waiting)
    && Grew(s0, s, info, did.left)
  }

  lemma EffectsAre(did: Effects, p0: Placement, info: Infos, m0: Marks, m: Marks, s0: States, s: States)
    requires did.p1 == Relocate(p0, On(NewcomersAt(p0, info, Waiting), info, did.failedNodes), Failed)
    requires forall n :: n in did.failedNodes <==> IsFailedNode(s0, info, NewcomersAt(p0, info, Waiting), n)
    requires Marked(m0, m, info, NewcomersAt(did.p1, info, Waiting), {})
    requires did.left <= NewcomersAt(did.p1, info, Ready) + NewcomersAt(did.p1, info, Waiting)
    requires Grew(s0, s, info, did.left)
    ensures EffectsOk(did, p0, info, m0, m, s0, s)
  {
  }

  /** Tasks that are assumed in the cache under their node, and held by the queue. */
  ghost predicate Settled(p: Placement, info: Infos, queued: Queued, s: States) {
    && AllHeld(p, queued)
    && (forall u :: u in p && u in info && (p[u] == Ready || p[u] == Waiting) && !info[u].assumed ==>
          u in s && s[u] == PodState(info[u].task.node, true))
  }

  /**
   Marks the victims and assumes the tasks. If the unit is not failed afterwards, every task
   it can still bind is held and, if new, assumed in the cache; if an assume failed, all new
   tasks have failed, and when every forget succeeds the cache holds the pods it held before.
  */
  method MarkVictimsAndAssumeTasks(
    binder: Binder, unit: BindingUnitInfo,
    volumesOk: Uid -> bool, storesOk: Uid -> bool, forgetOk: Uid -> bool)
    returns (ghost marking: set<Uid>, ghost rolledBack: bool, ghost did: Effects)
    requires unit.Valid() && unit.Complete() && binder.cache.Valid()
    requires Checked(unit.place, unit.info, binder.queued, binder.cache.markers)
    modifies binder`queued, binder.cache, unit
    ensures unit.Valid() && unit.Complete() && binder.cache.Valid() && unit.info == old(unit.info)
    ensures binder.queued.Keys == old(binder.queued).Keys
    ensures Sunk(old(unit.place), unit.place)
    ensures !unit.Doomed() ==> Settled(unit.place, unit.info, binder.queued, binder.cache.states)
    ensures Gained(old(binder.cache.states), binder.cache.states, binder.queued, unit.place.Keys)
    ensures old(binder.QueueOk()) ==> binder.QueueOk()
    ensures Marked(old(binder.cache.markers), binder.cache.markers, unit.info, marking, {})
    ensures NewcomersAt(unit.place, unit.info, Waiting) <= marking <= NewcomersAt(old(unit.place), unit.info, Waiting)
    ensures rolledBack ==>
      && NewcomersAt(unit.place, unit.info, Ready) == {} && NewcomersAt(unit.place, unit.info, Waiting) == {}
      && ((forall u :: forgetOk(u)) ==> binder.cache.states == old(binder.cache.states))
    ensures
      && !old(unit.Doomed()) && AllMarkable(old(unit.place), unit.info, old(binder.cache.states))
      && AllAssumable(old(unit.place), unit.info, old(binder.cache.states), volumesOk, storesOk)
      ==> unit.place == old(unit.place)
    ensures EffectsOk(did, old(unit.place), unit.info, old(binder.cache.markers), binder.cache.markers,
                      old(binder.cache.states), binder.cache.states)
    ensures unit.place == AfterAssuming(unit, AfterMarking(old(unit.place), unit.info, old(binder.cache.states)),
                                        unit.info, old(binder.cache.states), volumesOk, storesOk)
  {
    hide Consistent, Marked, Exclusive, Sunk, Hopeless, NodesAgree, IsFailedNode, Settled, NewcomersAt, On, Gained,
         AllMarkable, AllAssumable, Grew, EffectsOk, Relocate, AfterMarking;
    ghost var p0, info, m0, s0 := unit.place, unit.info, binder.cache.markers, binder.cache.states;
    rolledBack := false;
    WaitingUnmarked(p0, info, binder.queued, binder.cache.markers);
    var failedNodes := MarkVictimsOfNewTasks(unit, binder.cache);
    ghost var p1 := unit.place;
    marking := NewcomersAt(p1, info, Waiting);
    NoNodeFails(p0, p1, info, binder.cache.states, failedNodes);
    MarkingLeaves(p0, p1, info, binder.cache.states, failedNodes);
    FailedFromWaiting(p0, p1, info, binder.queued, failedNodes);
    assert |p0.Keys| == |p0| && |p1.Keys| == |p1|;
    var failed := unit.IsUnitFailed();
    GainedRefl(binder.cache.states, binder.queued, p1.Keys);
    GrewNothing(binder.cache.states, info);
    did := Effects(p1, failedNodes, {});
    EffectsAre(did, p0, info, m0, binder.cache.markers, binder.cache.states, binder.cache.states);
    if !failed {
      var ok; ghost var left;
      ok, left := AssumeOrRollBack(binder, unit, volumesOk, storesOk, forgetOk);
      did := did.(left := left);
      EffectsAre(did, p0, info, m0, binder.cache.markers, s0, binder.cache.states);
      rolledBack := !ok;
      if rolledBack {
        NewcomersFail(p0, p1, unit.place, info);
      }
    }
  }

  /** Where marking leaves the tasks: those of a node with an unmarkable victim have failed. */
  ghost function AfterMarking(p: Placement, info: Infos, states: States): Placement {
    var waiting := NewcomersAt(p, info, Waiting);
    map u | u in p ::
      if u in waiting && IsFailedNode(states, info, waiting, info[u].task.node) then Failed else p[u]
  }

  /** Where assuming leaves them: if a single new task cannot be assumed, all new ones have failed. */
  ghost function AfterAssuming(
    unit: BindingUnitInfo, p: Placement, info: Infos, states: States, volumesOk: Uid -> bool, storesOk: Uid -> bool): Placement
  {
    if Hopeless(unit, p) || AllAssumable(p, info, states, volumesOk, storesOk) then p
    else Relocate(p, NewcomersAt(p, info, Ready) + NewcomersAt(p, info, Waiting), Failed)
  }

  lemma MarkingLeaves(p0: Placement, p1: Placement, info: Infos, states: States, failed: set<NodeName>)
    requires p1 == Relocate(p0, On(NewcomersAt(p0, info, Waiting), info, failed), Failed)
    requires forall n :: n in failed <==> IsFailedNode(states, info, NewcomersAt(p0, info, Waiting), n)
    ensures p1 == AfterMarking(p0, info, states)
  {
    hide IsFailedNode;
  }

  /** Every admitted new task can be assumed. */
  ghost predicate AllAssumable(
    p: Placement, info: Infos, states: States, volumesOk: Uid -> bool, storesOk: Uid -> bool)
  {
    forall u :: u in NewcomersAt(p, info, Ready) + NewcomersAt(p, info, Waiting) ==>
      volumesOk(u) && storesOk(u) && u !in states
  }

  /** Every victim of an admitted new task can be marked. */
  ghost predicate AllMarkable(p: Placement, info: Infos, states: States) {
    forall u :: u in NewcomersAt(p, info, Waiting) && u in info ==> Markable(states, info[u].task)
  }

  /** What the assume step needs of a unit: old tasks are held, new ones are not in handling. */
  ghost predicate Assumable(p: Placement, info: Infos, queued: Queued) {
    && p.Keys == info.Keys && p.Keys <= queued.Keys
    && (forall u :: u in p && (p[u] == Ready || p[u] == Waiting) ==>
          if info[u].assumed then Held(queued, u) else !queued[u].inHandling)
  }

  /** Assumes the admitted new tasks, or undoes what was assumed and fails them all. */
  method AssumeOrRollBack(
    binder: Binder, unit: BindingUnitInfo, volumesOk: Uid -> bool, storesOk: Uid -> bool, forgetOk: Uid -> bool)
    returns (ok: bool, ghost left: set<Uid>)
    requires unit.Valid() && unit.Complete() && binder.cache.Valid()
    requires Assumable(unit.place, unit.info, binder.queued)
    modifies binder`queued, binder.cache`nodes, binder.cache`states, unit
    ensures unit.Valid() && unit.Complete() && binder.cache.Valid() && unit.info == old(unit.info)
    ensures binder.queued.Keys == old(binder.queued).Keys
    ensures Settled(unit.place, unit.info, binder.queued, binder.cache.states)
    ensures Gained(old(binder.cache.states), binder.cache.states, binder.queued, unit.place.Keys)
    ensures old(binder.QueueOk()) ==> binder.QueueOk()
    ensures ok ==> unit.place == old(unit.place)
    ensures ok <==> AllAssumable(old(unit.place), unit.info, old(binder.cache.states), volumesOk, storesOk)
    ensures !ok ==> unit.place == Relocate(old(unit.place),
      NewcomersAt(old(unit.place), unit.info, Ready) + NewcomersAt(old(unit.place), unit.info, Waiting), Failed)
    ensures !ok && (forall u :: forgetOk(u)) ==> binder.cache.states == old(binder.cache.states)
    ensures left <= NewcomersAt(old(unit.place), unit.info, Ready) + NewcomersAt(old(unit.place), unit.info, Waiting)
    ensures Grew(old(binder.cache.states), binder.cache.states, unit.info, left)
  {
    hide Consistent, NodesAgree, AssumedSo, Settled, Gained, NewcomersAt, Assumable, Grew;
    ghost var p, info, q0, s0 := unit.place, unit.info, binder.queued, binder.cache.states;
    var tasks := NewcomersOf(unit);
    TasksAreFresh(p, info, q0, tasks.Keys);
    ghost var done;
    ok, done := AssumeNewTasks(binder, tasks, volumesOk, storesOk);
    AssumedKeys(tasks, done, q0, binder.queued, s0, binder.cache.states);
    GainedWiden(s0, binder.cache.states, binder.queued, tasks.Keys, p.Keys);
    left := done;
    if ok {
      AssumedSettles(p, info, tasks, q0, binder.queued, s0, binder.cache.states);
    } else {
      left := RollBack(binder, unit, tasks, forgetOk, done, q0, s0);
    }
    AssumedGrew(tasks, left, q0, binder.queued, s0, binder.cache.states, info);
  }

  lemma TasksAreFresh(p: Placement, info: Infos, queued: Queued, tasks: set<Uid>)
    requires Assumable(p, info, queued)
    requires tasks == NewcomersAt(p, info, Ready) + NewcomersAt(p, info, Waiting)
    ensures tasks <= queued.Keys && tasks <= p.Keys
    ensures forall u :: u in tasks ==> !queued[u].inHandling
  {
  }

  /** Forgets what was assumed and fails all admitted new tasks. */
  method RollBack(
    binder: Binder, unit: BindingUnitInfo, tasks: map<Uid, Task>, forgetOk: Uid -> bool,
    ghost done: set<Uid>, ghost q0: Queued, ghost s0: States)
    returns (ghost left: set<Uid>)
    requires unit.Valid() && unit.Complete() && binder.cache.Valid()
    requires Assumable(unit.place, unit.info, q0) && tasks.Keys <= binder.queued.Keys
    requires tasks.Keys == NewcomersAt(unit.place, unit.info, Ready) + NewcomersAt(unit.place, unit.info, Waiting)
    requires AssumedSo(tasks, done, q0, binder.queued, s0, binder.cache.states)
    requires done <= tasks.Keys <= q0.Keys && tasks.Keys <= unit.place.Keys
    requires forall u :: u in tasks ==> !q0[u].inHandling
    modifies binder`queued, binder.cache`nodes, binder.cache`states, unit
    ensures unit.Valid() && unit.Complete() && binder.cache.Valid() && unit.info == old(unit.info)
    ensures binder.queued.Keys == q0.Keys
    ensures Settled(unit.place, unit.info, binder.queued, binder.cache.states)
    ensures Gained(s0, binder.cache.states, binder.queued, unit.place.Keys)
    ensures (forall u :: u in q0 && q0[u].inHandling ==> q0[u].reserved.Some?) ==> binder.QueueOk()
    ensures unit.place == Relocate(old(unit.place),
      NewcomersAt(old(unit.place), unit.info, Ready) + NewcomersAt(old(unit.place), unit.info, Waiting), Failed)
    ensures (forall u :: forgetOk(u)) ==> binder.cache.states == s0
    ensures AssumedSo(tasks, left, q0, binder.queued, s0, binder.cache.states)
  {
    hide Consistent, NodesAgree, AssumedSo, Settled, Gained, NewcomersAt, Assumable;
    ghost var p, info := unit.place, unit.info;
    left := ForgetNewAssumedTasks(binder, tasks, forgetOk, done, q0, s0);
    AssumedKeys(tasks, left, q0, binder.queued, s0, binder.cache.states);
    GainedWiden(s0, binder.cache.states, binder.queued, tasks.Keys, p.Keys);
    unit.MoveAllNewTasksInReadyAndWaitingListToFailedList();
    assert unit.place.Keys == p.Keys;
    assert |unit.place.Keys| == |unit.place| && |p.Keys| == |p|;
    RolledBackSettles(p, unit.place, info, tasks, left, q0, binder.queued, s0, binder.cache.states);
  }

  /** When every victim can be marked, no node fails and nothing moves. */
  lemma NoNodeFails(p0: Placement, p1: Placement, info: Infos, states: States, failed: set<NodeName>)
    requires p1 == Relocate(p0, On(NewcomersAt(p0, info, Waiting), info, failed), Failed)
    requires forall n :: n in failed <==> IsFailedNode(states, info, NewcomersAt(p0, info, Waiting), n)
    ensures AllMarkable(p0, info, states) ==> p1 == p0
  {
    if AllMarkable(p0, info, states) {
      assert failed == {};
      assert On(NewcomersAt(p0, info, Waiting), info, failed) == {};
    }
  }

  lemma AssumedKeys(tasks: map<Uid, Task>, done: set<Uid>, q0: Queued, q: Queued, s0: States, s: States)
    requires AssumedSo(tasks, done, q0, q, s0, s) && tasks.Keys <= q0.Keys
    ensures q.Keys == q0.Keys && done <= tasks.Keys
    ensures Gained(s0, s, q, tasks.Keys)
    ensures
      && (forall u :: u in tasks ==> !q0[u].inHandling)
      && (forall u :: u in q0 && q0[u].inHandling ==> q0[u].reserved.Some?)
      ==> (forall u :: u in q && q[u].inHandling ==> q[u].reserved.Some?)
  {
  }

  lemma GainedWiden(s0: States, s: States, queued: Queued, a: set<Uid>, b: set<Uid>)
    requires Gained(s0, s, queued, a) && a <= b
    ensures Gained(s0, s, queued, b)
  {
  }

  lemma GainedRefl(s: States, queued: Queued, pods: set<Uid>)
    ensures Gained(s, s, queued, pods)
  {
  }

  lemma WaitingUnmarked(p: Placement, info: Infos, queued: Queued, m: Marks)
    requires Checked(p, info, queued, m)
    ensures forall u :: u in NewcomersAt(p, info, Waiting) ==> u in info && info[u].task.victims !! m.Keys
  {
  }

  lemma NewcomersFail(p0: Placement, p1: Placement, p: Placement, info: Infos)
    requires Sunk(p0, p1) && p1.Keys == info.Keys
    requires p == Relocate(p1, NewcomersAt(p1, info, Ready) + NewcomersAt(p1, info, Waiting), Failed)
    ensures Sunk(p0, p)
    ensures NewcomersAt(p, info, Ready) == {} && NewcomersAt(p, info, Waiting) == {}
  {
  }

  lemma FailedFromWaiting(p0: Placement, p1: Placement, info: Infos, queued: Queued, nodes: set<NodeName>)
    requires p1 == Relocate(p0, On(NewcomersAt(p0, info, Waiting), info, nodes), Failed)
    requires Assumable(p0, info, queued)
    ensures Sunk(p0, p1) && p1.Keys == p0.Keys
    ensures NewcomersAt(p1, info, Waiting) <= NewcomersAt(p0, info, Waiting)
    ensures Assumable(p1, info, queued)
  {
    assert forall u :: u in p1 && (p1[u] == Ready || p1[u] == Waiting) ==> p0[u] == p1[u];
  }

  lemma AssumedSettles(
    p: Placement, info: Infos, tasks: map<Uid, Task>, q0: Queued, q: Queued, s0: States, s: States)
    requires Assumable(p, info, q0)
    requires tasks.Keys == NewcomersAt(p, info, Ready) + NewcomersAt(p, info, Waiting)
    requires forall u :: u in tasks ==> u in info && tasks[u] == info[u].task
    requires AssumedSo(tasks, tasks.Keys, q0, q, s0, s)
    ensures Settled(p, info, q, s)
  {
    forall u | u in p && (p[u] == Ready || p[u] == Waiting)
      ensures Held(q, u)
    {
      assert info[u].assumed || u in tasks;
    }
  }

  lemma RolledBackSettles(
    p1: Placement, p: Placement, info: Infos, tasks: map<Uid, Task>, left: set<Uid>,
    q0: Queued, q: Queued, s0: States, s: States)
    requires Assumable(p1, info, q0)
    requires tasks.Keys == NewcomersAt(p1, info, Ready) + NewcomersAt(p1, info, Waiting)
    requires p == Relocate(p1, NewcomersAt(p1, info, Ready) + NewcomersAt(p1, info, Waiting), Failed)
    requires AssumedSo(tasks, left, q0, q, s0, s)
    ensures Settled(p, info, q, s)
  {
    forall u | u in p && (p[u] == Ready || p[u] == Waiting)
      ensures Held(q, u) && info[u].assumed
    {
      assert u !in tasks;
    }
  }

  /**
   How an attempt ended. `bound` are the pods whose bind call succeeded, `waited` those that
   were waiting for victims at that time.
  */
  datatype Outcome = Outcome(
    reachedBind: bool,
    attempted: set<Uid>,
    bound: set<Uid>,
    waited: set<Uid>,
    requeued: set<Uid>,
    rejected: set<Uid>,
    markedScheduled: bool,
    fatal: bool)

  /** Nothing was sent to the API server. */
  function NoBinding(): Outcome {
    Outcome(false, {}, {}, {}, {}, {}, false, false)
  }

  /** A PodGroup that has never reached its minimum. */
  ghost predicate Gang(unit: BindingUnitInfo) {
    unit.isPodGroup && !unit.everScheduled
  }

  /** Every pod of the unit is accounted for once the attempt is over. */
  ghost predicate Accounts(r: Outcome, p: Placement) {
    && r.requeued == At(p, Waiting) && r.rejected == At(p, Failed)
    && p.Keys == At(p, Ready) + r.requeued + r.rejected + At(p, Ignored)
    && At(p, Ready) <= r.bound <= r.attempted
  }

  /** What an attempt promises about the minimum of a gang. */
  ghost predicate GangSafe(r: Outcome, unit: BindingUnitInfo, p: Placement) {
    && (r.reachedBind && Gang(unit) ==> |r.attempted| >= unit.minMember)
    && (!r.reachedBind ==> r.attempted == {} && r.bound == {})
    && (!r.reachedBind && Gang(unit) && r.requeued != {} ==> |r.requeued| >= unit.minMember)
    && (r.markedScheduled <==> r.reachedBind && unit.isPodGroup && !MissesMinimum(r, unit))
    && (r.markedScheduled ==> r.bound == At(p, Ready) && r.requeued == r.waited)
    && (r.reachedBind && MissesMinimum(r, unit) ==> r.requeued == {})
  }

  /** What is bound and what waits is too little for a gang. */
  ghost predicate MissesMinimum(r: Outcome, unit: BindingUnitInfo) {
    Gang(unit) && |r.bound| + |r.waited| < unit.minMember
  }

  /** What goes back of a gang is enough for the next attempt by itself, or the gang is marked as scheduled. */
  lemma PutsBackEnough(r: Outcome, unit: BindingUnitInfo, p: Placement)
    requires GangSafe(r, unit, p)
    ensures Gang(unit) && r.requeued != {} ==> |r.requeued| >= unit.minMember || r.markedScheduled
  {
  }

  /**
   Bindings that the API server accepted did not bring the unit to its minimum: then it is
   rejected as a whole, with the pods that are bound already.
  */
  ghost predicate FallsShort(r: Outcome, unit: BindingUnitInfo) {
    && r.reachedBind && r.bound != {}
    && (if unit.isPodGroup then !unit.everScheduled && |r.bound| + |r.waited| < unit.minMember else r.bound != r.attempted)
  }

  /** Each pod is bound, back in the queue, rejected or ignored, and only one of them. */
  ghost predicate OnceEach(r: Outcome, p: Placement) {
    && p.Keys == r.bound + r.requeued + r.rejected + At(p, Ignored)
    && r.bound !! r.requeued && r.bound !! r.rejected && r.requeued !! r.rejected
    && At(p, Ignored) !! r.bound + r.requeued + r.rejected
  }

  /** Pods are accounted for once each, unless the unit falls short: then every bound pod is also rejected. */
  ghost predicate Settles(r: Outcome, unit: BindingUnitInfo, p: Placement) {
    && (r.bound * r.rejected != {} <==> FallsShort(r, unit))
    && (FallsShort(r, unit) ==> r.bound <= r.rejected && r.requeued == {})
    && (!FallsShort(r, unit) ==> OnceEach(r, p))
    && r.attempted - r.bound <= r.rejected
  }

  /**
   A pod is rejected although the API server accepted its binding exactly if the unit falls
   short or a bind call failed although it had been carried out.
  */
  lemma WhenAcceptedIsRejected(r: Outcome, unit: BindingUnitInfo, p: Placement, bindOk: Uid -> bool, accepted: Uid -> bool)
    requires Settles(r, unit, p) && r.bound <= r.attempted
    requires forall u :: u in r.attempted ==> (u in r.bound <==> bindOk(u)) && (bindOk(u) ==> accepted(u))
    ensures (exists u :: u in r.attempted && accepted(u) && u in r.rejected) <==>
      FallsShort(r, unit) || exists u :: u in r.attempted && accepted(u) && !bindOk(u)
  {
    hide OnceEach;
    if FallsShort(r, unit) {
      var u :| u in r.bound;
      assert u in r.attempted && accepted(u) && u in r.rejected;
    } else if u :| u in r.attempted && accepted(u) && u in r.rejected {
      assert u !in r.bound * r.rejected;
      assert !bindOk(u);
    }
  }

  /** A unit of its own pod is bound or not; only a gang falls short. */
  lemma OnlyGangsFallShort(r: Outcome, unit: BindingUnitInfo)
    requires r.bound <= r.attempted && (unit.isPodGroup || |r.attempted| <= 1)
    ensures FallsShort(r, unit) <==>
      r.reachedBind && Gang(unit) && r.bound != {} && |r.bound| + |r.waited| < unit.minMember
  {
    if !unit.isPodGroup && r.bound != {} {
      var u :| u in r.bound;
      assert |r.attempted - {u}| == |r.attempted| - 1;
      assert r.attempted - {u} == {};
    }
  }

  lemma SettlesOnce(r: Outcome, unit: BindingUnitInfo, p: Placement)
    requires Accounts(r, p) && r.bound == At(p, Ready) && !FallsShort(r, unit)
    requires r.attempted - r.bound <= At(p, Failed)
    ensures Settles(r, unit, p)
  {
  }

  lemma SettlesShort(r: Outcome, unit: BindingUnitInfo, p: Placement)
    requires Accounts(r, p) && At(p, Ready) == {} && At(p, Waiting) == {} && r.bound !! At(p, Ignored) && r.bound <= p.Keys
    requires r.bound != {} ==> FallsShort(r, unit)
    requires r.attempted - r.bound <= At(p, Failed)
    ensures Settles(r, unit, p)
  {
    if r.bound != {} {
      var u :| u in r.bound;
      assert u in r.rejected;
      assert u in r.bound * r.rejected;
    }
  }

  /** The lists an attempt can still use once all checks are over. */
  ghost predicate OnlyReadyOrWaiting(p: Placement) {
    At(p, Assumed) == {} && At(p, New) == {}
  }

  /** From here on a task may fail, and a ready task may be told to wait; nothing else. */
  ghost predicate Ends(p0: Placement, p: Placement) {
    && p.Keys == p0.Keys
    && (forall u :: u in p ==>
          || p[u] == p0[u]
          || (p0[u] == Ready && p[u] == Waiting)
          || (p0[u] != Ignored && p[u] == Failed))
  }

  /** Fails and rejects everything that is left of the unit. */
  method FailAndRejectAllTasks(binder: Binder, unit: BindingUnitInfo, forgetOk: Uid -> bool)
    requires unit.Valid() && unit.Complete() && binder.cache.Valid() && unit.place.Keys <= binder.queued.Keys
    modifies binder.cache, unit
    ensures unit.Valid() && unit.Complete() && binder.cache.Valid() && unit.info == old(unit.info)
    ensures unit.place == Relocate(old(unit.place), Live(old(unit.place)), Failed)
    ensures binder.cache.markers == Released(old(binder.cache.markers), unit.failedTasks)
    ensures binder.cache.states == Kept(old(binder.cache.states), unit.failedTasks, binder.queued, forgetOk)
  {
    hide Consistent, NodesAgree, Live;
    ghost var p := unit.place;
    unit.MoveAllTasksToFailedList();
    assert unit.place.Keys == p.Keys;
    assert |unit.place.Keys| == |unit.place| && |p.Keys| == |p|;
    RejectFailedTasks(binder, unit, forgetOk);
  }

  /** The nodes with a new waiting task whose victims could not all be deleted. */
  ghost function UndeletedNodes(p: Placement, info: Infos, deleteOk: Uid -> bool): set<NodeName> {
    set u | u in NewcomersAt(p, info, Waiting) && info[u].task.victims != {} && !deleteOk(u) :: info[u].task.node
  }

  /** Where the tasks are once those nodes are given up. */
  ghost function AfterDeletions(p: Placement, info: Infos, deleteOk: Uid -> bool): Placement {
    Relocate(p, On(NewcomersAt(p, info, Waiting), info, UndeletedNodes(p, info, deleteOk)), Failed)
  }

  /** The ready tasks are enough to be bound, and a PodGroup is locked against timing out. */
  ghost predicate MayBind(unit: BindingUnitInfo, p: Placement, lockOk: bool) {
    && !Hopeless(unit, p)
    && (unit.isPodGroup ==> lockOk && (unit.everScheduled || |At(p, Ready)| >= unit.minMember))
  }

  /** The unit is given up before anything was bound. */
  ghost predicate GaveUp(r: Outcome, p: Placement) {
    r == NoBinding().(rejected := p.Keys - At(p, Ignored))
  }

  /** How it ends after the bind calls. */
  ghost predicate FinishesSo(r: Outcome, doomed: bool, isPodGroup: bool, p: Placement) {
    if doomed
    then r.requeued == {} && r.rejected == p.Keys - At(p, Ignored) && !r.markedScheduled
    else r.requeued == r.waited && r.rejected == At(p, Failed) && r.markedScheduled == isPodGroup
  }

  /** How binding ends, given where the tasks are before the bind calls. */
  ghost predicate BindsSo(r: Outcome, unit: BindingUnitInfo, p: Placement, bindOk: Uid -> bool) {
    && r.reachedBind && !r.fatal
    && r.attempted == At(p, Ready) && r.waited == At(p, Waiting)
    && r.bound == (set u | u in At(p, Ready) && bindOk(u))
    && (var after := Relocate(p, r.attempted - r.bound, Failed);
        FinishesSo(r, Hopeless(unit, after), unit.isPodGroup, after))
  }

  /** How the last stage ends, given where the tasks are before it. */
  ghost predicate Concludes(
    r: Outcome, unit: BindingUnitInfo, p4: Placement, info: Infos, deleteOk: Uid -> bool, lockOk: bool, bindOk: Uid -> bool)
  {
    var p := AfterDeletions(p4, info, deleteOk);
    if Hopeless(unit, p) then GaveUp(r, p)
    else if unit.isPodGroup && !unit.everScheduled && |At(p, Ready)| < unit.minMember
    then r == NoBinding().(requeued := At(p, Ready) + At(p, Waiting), rejected := At(p, Failed))
    else if unit.isPodGroup && !lockOk then GaveUp(r, p)
    else BindsSo(r, unit, p, bindOk)
  }

  /** The nodes on which deleting the victims of a new preemptor failed. */
  method DeleteVictimsOfNewTasks(unit: BindingUnitInfo, deleteOk: Uid -> bool) returns (failed: set<NodeName>)
    requires unit.Valid()
    ensures failed == UndeletedNodes(unit.place, unit.info, deleteOk)
  {
    hide Consistent;
    unit.ListsAre();
    failed := set u | u in unit.waitingTasks && !unit.waitingTasks[u].assumed
      && unit.waitingTasks[u].task.victims != {} && !deleteOk(u) :: unit.waitingTasks[u].task.node;
  }

  /** Everything fails: the unit keeps only what it already sent to the API server. */
  method GiveUp(binder: Binder, unit: BindingUnitInfo, r0: Outcome, forgetOk: Uid -> bool) returns (r: Outcome)
    requires unit.Valid() && unit.Complete() && binder.cache.Valid() && unit.place.Keys <= binder.queued.Keys
    requires r0.bound <= r0.attempted
    modifies binder.cache, unit
    ensures unit.Valid() && unit.Complete() && binder.cache.Valid() && unit.info == old(unit.info)
    ensures unit.place.Keys == old(unit.place).Keys
    ensures unit.place == Relocate(old(unit.place), Live(old(unit.place)), Failed)
    ensures r == r0.(requeued := {}, rejected := r.rejected) && Accounts(r, unit.place)
    ensures r.rejected == old(unit.place).Keys - At(old(unit.place), Ignored)
    ensures At(unit.place, Ready) == {} && At(unit.place, Waiting) == {}
    ensures !r.reachedBind && r.attempted == {} ==> Settles(r, unit, unit.place)
    ensures binder.cache.markers == Released(old(binder.cache.markers), unit.failedTasks)
    ensures binder.cache.states == Kept(old(binder.cache.states), unit.failedTasks, binder.queued, forgetOk)
  {
    hide Consistent, NodesAgree, Released, Kept, At, Live, Relocate, Settles;
    ghost var p := unit.place;
    FailAndRejectAllTasks(binder, unit, forgetOk);
    unit.KeysAre();
    r := r0.(requeued := {}, rejected := unit.failedTasks.Keys);
    NothingLives(p);
    AllFailed(p);
    PlacesAdd(unit.place);
    if r.attempted == {} {
      SettlesShort(r, unit, unit.place);
    }
  }

  lemma NothingLives(p: Placement)
    ensures
      var p' := Relocate(p, Live(p), Failed);
      At(p', Ready) == {} && At(p', Waiting) == {} && At(p', Assumed) == {} && At(p', New) == {}
  {
    LiveIs(p);
  }

  /** Once everything alive has failed, what is not ignored has. */
  lemma AllFailed(p: Placement)
    ensures At(Relocate(p, Live(p), Failed), Failed) == p.Keys - At(p, Ignored)
    ensures At(Relocate(p, Live(p), Failed), Ignored) == At(p, Ignored) && Relocate(p, Live(p), Failed).Keys == p.Keys
  {
    LiveIs(p);
  }

  lemma AccountsHolds(r: Outcome, p: Placement)
    requires OnlyReadyOrWaiting(p) && r.requeued == At(p, Waiting) && r.rejected == At(p, Failed)
    requires At(p, Ready) <= r.bound <= r.attempted
    ensures Accounts(r, p)
  {
    hide At;
    PlacesAdd(p);
  }

  lemma WaitingHeld(p: Placement, queued: Queued)
    requires AllHeld(p, queued)
    ensures forall u :: u in At(p, Waiting) ==> Held(queued, u)
    ensures forall u :: u in At(p, Ready) ==> Held(queued, u)
  {
  }

  /** Puts the waiting tasks back into the queue and rejects the failed ones. */
  method Conclude(binder: Binder, unit: BindingUnitInfo, r0: Outcome, forgetOk: Uid -> bool) returns (r: Outcome)
    requires unit.Valid() && unit.Complete() && binder.cache.Valid() && unit.place.Keys <= binder.queued.Keys
    requires OnlyReadyOrWaiting(unit.place) && AllHeld(unit.place, binder.queued)
    requires At(unit.place, Ready) <= r0.bound <= r0.attempted
    modifies binder.cache
    ensures binder.cache.Valid()
    ensures r == r0.(requeued := r.requeued, rejected := r.rejected, fatal := false)
    ensures Accounts(r, unit.place)
    ensures forall u :: u in r.requeued ==> Held(binder.queued, u)
    ensures binder.cache.markers == Released(old(binder.cache.markers), unit.failedTasks)
    ensures binder.cache.states == Kept(old(binder.cache.states), unit.failedTasks, binder.queued, forgetOk)
  {
    hide Consistent, NodesAgree, Released, Kept, At, Accounts;
    WaitingHeld(unit.place, binder.queued);
    var requeued, fatal := ReEnqueueWaitingTasks(binder, unit);
    RejectFailedTasks(binder, unit, forgetOk);
    unit.KeysAre();
    AccountsHolds(r0.(requeued := requeued, rejected := unit.failedTasks.Keys, fatal := fatal), unit.place);
    r := r0.(requeued := requeued, rejected := unit.failedTasks.Keys, fatal := fatal);
  }

  lemma LiveTwo(p: Placement)
    requires OnlyReadyOrWaiting(p)
    ensures |Live(p)| == |At(p, Ready)| + |At(p, Waiting)|
  {
    assert Live(p) == At(p, Ready) + At(p, Waiting);
    assert At(p, Ready) !! At(p, Waiting);
  }

  /** Binds all ready tasks. */
  method BindReady(binder: Binder, unit: BindingUnitInfo, bindOk: Uid -> bool, forgetOk: Uid -> bool)
    returns (r: Outcome)
    requires unit.Valid() && unit.Complete() && binder.cache.Valid() && unit.place.Keys <= binder.queued.Keys
    requires OnlyReadyOrWaiting(unit.place) && AllHeld(unit.place, binder.queued)
    requires Gang(unit) ==> |At(unit.place, Ready)| >= unit.minMember
    requires !unit.Doomed()
    modifies binder.cache, unit
    ensures unit.Valid() && unit.Complete() && binder.cache.Valid() && unit.info == old(unit.info)
    ensures Ends(old(unit.place), unit.place)
    ensures !r.fatal && Accounts(r, unit.place) && GangSafe(r, unit, unit.place) && r.reachedBind
    ensures r.attempted == At(old(unit.place), Ready) && r.waited == At(old(unit.place), Waiting)
    ensures Settles(r, unit, unit.place)
    ensures BindsSo(r, unit, old(unit.place), bindOk)
    ensures (forall u :: u in r.attempted ==> bindOk(u)) && At(old(unit.place), Failed) == {} ==> r.rejected == {}
    ensures forall u :: u in r.requeued ==> Held(binder.queued, u)
    ensures forall u :: u in r.attempted ==> (u in r.bound <==> bindOk(u))
    ensures binder.cache.markers == Released(old(binder.cache.markers), unit.failedTasks)
    ensures binder.cache.states == Kept(old(binder.cache.states), unit.failedTasks, binder.queued, forgetOk)
  {
    hide Consistent, NodesAgree, Released, Kept, Live, At, Relocate, Accounts, AllHeld, Ends, Settles, FallsShort,
         Hopeless, OnlyReadyOrWaiting, GangSafe, FinishesSo, BindsSo;
    ghost var p1 := unit.place;
    unit.KeysAre();
    var attempted := unit.readyTasks.Keys;
    var failing := set u | u in attempted && !bindOk(u);
    r := Outcome(true, attempted, attempted - failing, unit.waitingTasks.Keys, {}, {}, unit.isPodGroup, false);
    unit.MoveTasksFromReadyToFailedList(failing);
    ghost var p2 := unit.place;
    SomeFailed(p1, p2, failing, binder.queued);
    assert |p1.Keys| == |p1| && |p2.Keys| == |p2|;
    EndsRelocateReady(p1, failing);
    ShortIsHopeless(r, unit, p1, p2, failing);
    r := FinishBinding(binder, unit, r, forgetOk);
    EndsTwice(p1, p2, unit.place);
    AccountsRejected(r, unit.place);
    AllBound(p1, p2, failing);
    BoundSo(r, unit, p1, p2, failing, bindOk);
  }

  lemma AccountsRejected(r: Outcome, p: Placement)
    requires Accounts(r, p)
    ensures r.rejected == At(p, Failed)
  {
  }

  lemma BoundSo(
    r: Outcome, unit: BindingUnitInfo, p1: Placement, p2: Placement, failing: set<Uid>, bindOk: Uid -> bool)
    requires p2 == Relocate(p1, failing, Failed) && failing == set u | u in At(p1, Ready) && !bindOk(u)
    requires r.reachedBind && !r.fatal && r.attempted == At(p1, Ready) && r.waited == At(p1, Waiting)
    requires r.bound == r.attempted - failing && FinishesSo(r, Hopeless(unit, p2), unit.isPodGroup, p2)
    ensures BindsSo(r, unit, p1, bindOk)
  {
    hide At, Relocate, FinishesSo, Hopeless;
    assert r.attempted - r.bound == failing;
  }

  lemma AllBound(p1: Placement, p2: Placement, failing: set<Uid>)
    requires p2 == Relocate(p1, failing, Failed)
    ensures failing == {} ==> p2 == p1
  {
  }

  /** After the bind calls: the unit has failed and is rejected as a whole, or what waits goes back. */
  method FinishBinding(binder: Binder, unit: BindingUnitInfo, r0: Outcome, forgetOk: Uid -> bool)
    returns (r: Outcome)
    requires unit.Valid() && unit.Complete() && binder.cache.Valid() && unit.place.Keys <= binder.queued.Keys
    requires OnlyReadyOrWaiting(unit.place) && AllHeld(unit.place, binder.queued)
    requires r0.reachedBind && r0.markedScheduled == unit.isPodGroup && !r0.fatal
    requires Gang(unit) ==> |r0.attempted| >= unit.minMember
    requires r0.bound == At(unit.place, Ready) && r0.waited == At(unit.place, Waiting) && r0.bound <= r0.attempted
    requires r0.attempted - r0.bound <= At(unit.place, Failed)
    requires FallsShort(r0, unit) <==> r0.bound != {} && unit.Doomed()
    modifies binder.cache, unit
    ensures unit.Valid() && unit.Complete() && binder.cache.Valid() && unit.info == old(unit.info)
    ensures Ends(old(unit.place), unit.place)
    ensures !r.fatal && Accounts(r, unit.place) && GangSafe(r, unit, unit.place) && r.reachedBind
    ensures r.attempted == r0.attempted && r.bound == r0.bound && r.waited == r0.waited
    ensures !old(unit.Doomed()) ==> unit.place == old(unit.place)
    ensures FinishesSo(r, old(unit.Doomed()), unit.isPodGroup, old(unit.place))
    ensures Settles(r, unit, unit.place)
    ensures forall u :: u in r.requeued ==> Held(binder.queued, u)
    ensures binder.cache.markers == Released(old(binder.cache.markers), unit.failedTasks)
    ensures binder.cache.states == Kept(old(binder.cache.states), unit.failedTasks, binder.queued, forgetOk)
  {
    hide Consistent, NodesAgree, Released, Kept, Live, At, Relocate, Accounts, AllHeld, Ends, Settles, FallsShort;
    ghost var p := unit.place;
    AllFailed(p);
    LiveTwo(p);
    EndsSame(p);
    EndsAll(p, p);
    var failed := unit.IsUnitFailed();
    if failed {
      r := GiveUp(binder, unit, r0.(markedScheduled := false), forgetOk);
      SameShort(r0, r, unit);
      BoundStays(r, p, unit.place);
      SettlesShort(r, unit, unit.place);
    } else {
      r := Conclude(binder, unit, r0, forgetOk);
      SameShort(r0, r, unit);
      AccountsHas(r, p);
      AccountsRejected(r, p);
      SettlesOnce(r, unit, p);
    }
  }

  lemma EndsSame(p: Placement)
    ensures Ends(p, p)
  {
  }

  /** After the bind calls the unit has failed exactly if it falls short or nothing was bound and it needs more. */
  lemma ShortIsHopeless(r: Outcome, unit: BindingUnitInfo, p1: Placement, p2: Placement, failing: set<Uid>)
    requires p2 == Relocate(p1, failing, Failed) && failing <= At(p1, Ready) && OnlyReadyOrWaiting(p2)
    requires r.reachedBind && r.attempted == At(p1, Ready) && r.bound == At(p1, Ready) - failing
    requires r.waited == At(p1, Waiting) && !Hopeless(unit, p1)
    ensures r.bound == At(p2, Ready) && r.waited == At(p2, Waiting) && r.attempted - r.bound <= At(p2, Failed)
    ensures FallsShort(r, unit) <==> r.bound != {} && Hopeless(unit, p2)
  {
    hide At, Relocate, Live;
    PlacesAfterBind(p1, p2, failing);
    LiveTwo(p2);
  }

  lemma PlacesAfterBind(p1: Placement, p2: Placement, failing: set<Uid>)
    requires p2 == Relocate(p1, failing, Failed) && failing <= At(p1, Ready)
    ensures At(p2, Ready) == At(p1, Ready) - failing
    ensures At(p2, Waiting) == At(p1, Waiting)
    ensures At(p2, Failed) == At(p1, Failed) + failing
  {
  }

  lemma SameShort(r: Outcome, r': Outcome, unit: BindingUnitInfo)
    requires r'.reachedBind == r.reachedBind && r'.attempted == r.attempted
    requires r'.bound == r.bound && r'.waited == r.waited
    ensures FallsShort(r', unit) <==> FallsShort(r, unit)
  {
  }

  lemma BoundStays(r: Outcome, p: Placement, p': Placement)
    requires p' == Relocate(p, Live(p), Failed) && r.bound == At(p, Ready)
    ensures r.bound !! At(p', Ignored) && r.bound <= p'.Keys && At(p, Failed) <= At(p', Failed)
  {
    LiveIs(p);
  }

  lemma SomeFailed(p1: Placement, p2: Placement, failing: set<Uid>, queued: Queued)
    requires p2 == Relocate(p1, failing, Failed) && failing <= At(p1, Ready)
    requires OnlyReadyOrWaiting(p1) && AllHeld(p1, queued)
    ensures p2.Keys == p1.Keys && OnlyReadyOrWaiting(p2) && AllHeld(p2, queued)
    ensures At(p2, Ready) == At(p1, Ready) - failing
  {
    assert At(p2, Assumed) <= At(p1, Assumed) && At(p2, New) <= At(p1, New);
  }

  lemma AccountsHas(r: Outcome, p: Placement)
    requires Accounts(r, p)
    ensures r.requeued == At(p, Waiting)
  {
  }

  /** Deletes the victims, binds what can be bound, puts the rest back and rejects what failed. */
  method DeleteVictimsAndBindTasks(
    binder: Binder, unit: BindingUnitInfo,
    deleteOk: Uid -> bool, lockOk: bool, bindOk: Uid -> bool, forgetOk: Uid -> bool)
    returns (r: Outcome)
    requires unit.Valid() && unit.Complete() && binder.cache.Valid() && unit.place.Keys <= binder.queued.Keys
    requires OnlyReadyOrWaiting(unit.place) && AllHeld(unit.place, binder.queued)
    modifies binder.cache, unit
    ensures unit.Valid() && unit.Complete() && binder.cache.Valid() && unit.info == old(unit.info)
    ensures Ends(old(unit.place), unit.place)
    ensures !r.fatal && Accounts(r, unit.place) && GangSafe(r, unit, unit.place)
    ensures r.reachedBind && unit.isPodGroup ==> lockOk
    ensures
      var p := AfterDeletions(old(unit.place), unit.info, deleteOk);
      && (r.reachedBind <==> MayBind(unit, p, lockOk))
      && (r.reachedBind ==> r.attempted == At(p, Ready) && r.waited == At(p, Waiting))
    ensures Concludes(r, unit, old(unit.place), unit.info, deleteOk, lockOk, bindOk)
    ensures Settles(r, unit, unit.place)
    ensures
      && !old(unit.Doomed()) && At(old(unit.place), Failed) == {} && (unit.isPodGroup ==> lockOk)
      && (forall u :: u in NewcomersAt(old(unit.place), unit.info, Waiting) ==> deleteOk(u))
      && (forall u :: u in At(old(unit.place), Ready) ==> bindOk(u))
      ==> r.rejected == {}
    ensures forall u :: u in r.attempted ==> Held(binder.queued, u)
    ensures forall u :: u in r.requeued ==> Held(binder.queued, u)
    ensures forall u :: u in r.attempted ==> (u in r.bound <==> bindOk(u))
    ensures binder.cache.markers == Released(old(binder.cache.markers), unit.failedTasks)
    ensures binder.cache.states == Kept(old(binder.cache.states), unit.failedTasks, binder.queued, forgetOk)
  {
    hide Consistent, NodesAgree, Released, Kept, Live, On, Accounts, At, AllHeld, NewcomersAt, Ends, UndeletedNodes, Settles,
         Concludes, BindsSo;
    ghost var p0 := unit.place;
    WaitingHeld(p0, binder.queued);
    var failedNodes := DeleteVictimsOfNewTasks(unit, deleteOk);
    FailNodes(unit, failedNodes);
    ghost var p1 := unit.place;
    SomeWaiting(p0, unit.info, failedNodes);
    FewerWaiting(p0, p1, On(NewcomersAt(p0, unit.info, Waiting), unit.info, failedNodes), binder.queued);
    assert |p0.Keys| == |p0| && |p1.Keys| == |p1|;
    EndsAll(p0, p1);
    AllDeleted(p0, p1, unit.info, deleteOk);
    var failed := unit.IsUnitFailed();
    if failed {
      r := GiveUp(binder, unit, NoBinding(), forgetOk);
      ConcludesSo(r, unit, p0, p1, unit.info, deleteOk, lockOk, bindOk);
      return;
    }
    var able := unit.IsAbleToBindReadyTasks();
    if able {
      if unit.isPodGroup && !lockOk {
        r := GiveUp(binder, unit, NoBinding(), forgetOk);
        ConcludesSo(r, unit, p0, p1, unit.info, deleteOk, lockOk, bindOk);
        return;
      }
      WaitingHeld(p1, binder.queued);
      r := BindReady(binder, unit, bindOk, forgetOk);
      EndsTwice(p0, p1, unit.place);
    } else {
      unit.MoveAllTasksFromReadyToWaitingList();
      ghost var p2 := unit.place;
      AllWait(p1, p2, binder.queued);
      EndsTwice(p0, p1, p2);
      assert |p2.Keys| == |p2|;
      r := Conclude(binder, unit, NoBinding(), forgetOk);
      AccountsRejected(r, p2);
      WaitingFailsNone(p1, p2);
      AccountsHas(r, p2);
      SettlesOnce(r, unit, p2);
      AllBack(p1, p2);
    }
    ConcludesSo(r, unit, p0, p1, unit.info, deleteOk, lockOk, bindOk);
  }

  lemma AllBack(p1: Placement, p2: Placement)
    requires p2 == Relocate(p1, At(p1, Ready), Waiting)
    ensures At(p2, Waiting) == At(p1, Ready) + At(p1, Waiting)
  {
  }

  lemma ConcludesSo(
    r: Outcome, unit: BindingUnitInfo, p4: Placement, p: Placement, info: Infos,
    deleteOk: Uid -> bool, lockOk: bool, bindOk: Uid -> bool)
    requires p == AfterDeletions(p4, info, deleteOk)
    requires if Hopeless(unit, p) then GaveUp(r, p)
      else if unit.isPodGroup && !unit.everScheduled && |At(p, Ready)| < unit.minMember
      then r == NoBinding().(requeued := At(p, Ready) + At(p, Waiting), rejected := At(p, Failed))
      else if unit.isPodGroup && !lockOk then GaveUp(r, p)
      else BindsSo(r, unit, p, bindOk)
    ensures Concludes(r, unit, p4, info, deleteOk, lockOk, bindOk)
  {
  }

  /** When every deletion succeeds, nothing moves. */
  lemma AllDeleted(p0: Placement, p1: Placement, info: Infos, deleteOk: Uid -> bool)
    requires p1 == AfterDeletions(p0, info, deleteOk)
    ensures (forall u :: u in NewcomersAt(p0, info, Waiting) ==> deleteOk(u)) ==> p1 == p0
  {
    if forall u :: u in NewcomersAt(p0, info, Waiting) ==> deleteOk(u) {
      assert UndeletedNodes(p0, info, deleteOk) == {};
      assert On(NewcomersAt(p0, info, Waiting), info, {}) == {};
    }
  }

  lemma WaitingFailsNone(p1: Placement, p2: Placement)
    requires p2 == Relocate(p1, At(p1, Ready), Waiting)
    ensures At(p2, Failed) == At(p1, Failed)
  {
  }

  lemma FewerWaiting(p0: Placement, p1: Placement, failed: set<Uid>, queued: Queued)
    requires p1 == Relocate(p0, failed, Failed)
    requires OnlyReadyOrWaiting(p0) && AllHeld(p0, queued)
    requires failed <= At(p0, Waiting)
    ensures p1.Keys == p0.Keys && OnlyReadyOrWaiting(p1) && AllHeld(p1, queued)
    ensures Ends(p0, p1)
  {
    assert At(p1, Assumed) <= At(p0, Assumed) && At(p1, New) <= At(p0, New);
    EndsRelocate(p0, failed, Failed);
  }

  lemma AllWait(p1: Placement, p2: Placement, queued: Queued)
    requires p2 == Relocate(p1, At(p1, Ready), Waiting)
    requires OnlyReadyOrWaiting(p1) && AllHeld(p1, queued)
    ensures p2.Keys == p1.Keys && OnlyReadyOrWaiting(p2) && AllHeld(p2, queued)
    ensures At(p2, Ready) == {} && At(p2, Waiting) == Live(p1)
    ensures Ends(p1, p2)
  {
    assert At(p2, Assumed) <= At(p1, Assumed) && At(p2, New) <= At(p1, New);
    assert At(p2, Waiting) == At(p1, Ready) + At(p1, Waiting);
    assert Live(p1) == At(p1, Ready) + At(p1, Waiting);
  }

  lemma SomeWaiting(p: Placement, info: Infos, nodes: set<NodeName>)
    ensures On(NewcomersAt(p, info, Waiting), info, nodes) <= At(p, Waiting)
  {
  }

  lemma EndsRelocate(p: Placement, s: set<Uid>, b: Place)
    requires s !! At(p, Ignored) && b == Failed
    ensures Ends(p, Relocate(p, s, b))
  {
    forall u | u in p && u in s
      ensures p[u] != Ignored
    {
      assert u !in At(p, Ignored);
    }
  }

  lemma EndsTwice(p0: Placement, p1: Placement, p2: Placement)
    requires Ends(p0, p1) && Ends(p1, p2)
    ensures Ends(p0, p2)
  {
  }

  /** Failing everything alive is an end, also after an earlier step. */
  lemma EndsAll(p0: Placement, p1: Placement)
    requires Ends(p0, p1)
    ensures Ends(p0, Relocate(p1, Live(p1), Failed))
  {
    hide Ends, Live;
    LiveIs(p1);
    EndsRelocate(p1, Live(p1), Failed);
    EndsTwice(p0, p1, Relocate(p1, Live(p1), Failed));
  }

  lemma EndsRelocateReady(p: Placement, s: set<Uid>)
    requires s <= At(p, Ready)
    ensures Ends(p, Relocate(p, s, Failed))
  {
    EndsRelocate(p, s, Failed);
  }

  /** A gang of two whose pods are both ready. */
  method GangOfTwo() returns (unit: BindingUnitInfo)
    ensures fresh(unit) && unit.Valid() && unit.Complete() && unit.place == map[1 := Ready, 2 := Ready]
    ensures unit.isPodGroup && unit.minMember == 2 && !unit.everScheduled
  {
    hide Consistent, UnitLists.AtNode, Relocate;
    unit := new BindingUnitInfo(true, 2, 2, false);
    unit.AddNewTask(Task(1, "n", {}));
    unit.AddNewTask(Task(2, "n", {}));
    BothOnNode(unit.place, unit.info);
    unit.MoveAllNewTasksOnNodeToReadyList("n");
  }

  lemma BothOnNode(p: Placement, info: Infos)
    requires p == map[1 := New, 2 := New] && p.Keys == info.Keys && info[1].task.node == "n" && info[2].task.node == "n"
    ensures Relocate(p, AtNode(p, info, New, "n"), Ready) == map[1 := Ready, 2 := Ready]
  {
  }

  /** It happens: of a gang of two, one bind call succeeds and one fails; the bound pod is rejected with the other. */
  method BoundAndRejected() returns (r: Outcome)
    ensures r.reachedBind && r.bound == {1} && r.rejected == {1, 2}
  {
    hide Consistent, NodesAgree, Settles, Accounts, Ends, At, Live, Relocate, FallsShort, OnlyReadyOrWaiting, Hopeless,
         Released, Kept, GangSafe, AllHeld, Held;
    var unit := GangOfTwo();
    var binder := HoldsTwo();
    TwoReady(unit);
    ghost var p := unit.place;
    BothHeld(p, binder.queued);
    var bindOk: Uid -> bool := u => u == 1;
    r := BindReady(binder, unit, bindOk, u => true);
    NoneIgnored(p, unit.place);
    OneIsNotEnough(r, unit, bindOk);
  }

  /** A binder whose queue holds both pods. */
  method HoldsTwo() returns (binder: Binder)
    ensures fresh(binder) && fresh(binder.cache) && binder.cache.Valid()
    ensures binder.queued == map[1 := QueuedPod(Some("n"), true), 2 := QueuedPod(Some("n"), true)]
  {
    var cache := new BinderCache(_ => 1);
    binder := new Binder(cache);
    binder.queued := map[1 := QueuedPod(Some("n"), true), 2 := QueuedPod(Some("n"), true)];
  }

  lemma BothHeld(p: Placement, queued: Queued)
    requires p == map[1 := Ready, 2 := Ready]
    requires queued == map[1 := QueuedPod(Some("n"), true), 2 := QueuedPod(Some("n"), true)]
    ensures AllHeld(p, queued) && p.Keys == queued.Keys
  {
  }

  lemma NoneIgnored(p: Placement, p': Placement)
    requires Ends(p, p') && p == map[1 := Ready, 2 := Ready]
    ensures At(p', Ignored) == {} && p'.Keys == {1, 2}
  {
  }

  lemma TwoReady(unit: BindingUnitInfo)
    requires unit.place == map[1 := Ready, 2 := Ready] && unit.isPodGroup && unit.minMember == 2
    ensures At(unit.place, Ready) == {1, 2} && At(unit.place, Waiting) == {} && |At(unit.place, Ready)| == 2
    ensures OnlyReadyOrWaiting(unit.place) && Live(unit.place) == {1, 2} && !Hopeless(unit, unit.place)
  {
    assert At(unit.place, Ready) == {1, 2};
    assert At(unit.place, Assumed) == {} && At(unit.place, New) == {} && At(unit.place, Waiting) == {};
    assert Live(unit.place) == {1, 2};
  }

  lemma OneIsNotEnough(r: Outcome, unit: BindingUnitInfo, bindOk: Uid -> bool)
    requires r.reachedBind && r.attempted == {1, 2} && r.waited == {}
    requires unit.isPodGroup && !unit.everScheduled && unit.minMember == 2
    requires forall u :: u in r.attempted ==> (u in r.bound <==> bindOk(u))
    requires bindOk(1) && !bindOk(2)
    requires Settles(r, unit, unit.place) && Accounts(r, unit.place) && unit.place.Keys == {1, 2}
    requires At(unit.place, Ignored) == {}
    ensures r.bound == {1} && r.rejected == {1, 2}
  {
    assert r.bound == {1};
    IsShort(r, unit);
    FailedInside(unit.place);
    hide At, FallsShort;
    assert r.rejected <= {1, 2};
  }

  lemma IsShort(r: Outcome, unit: BindingUnitInfo)
    requires r.reachedBind && r.bound == {1} && r.waited == {}
    requires unit.isPodGroup && !unit.everScheduled && unit.minMember == 2
    ensures FallsShort(r, unit)
  {
  }

  lemma FailedInside(p: Placement)
    ensures At(p, Failed) <= p.Keys
  {
  }
}
