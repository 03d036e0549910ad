/**
 Marking the victims of the waiting new tasks. A node is all or nothing: either every
 victim of its waiting new tasks is marked by its preemptor, or none of them is and those
 tasks have failed. No mark of anybody else is ever touched.
*/
module Marking {

  import opened BinderTypes
  import opened Placements
  import opened UnitLists
  import opened BindingUnit
  import opened Caches
  import opened Workflow

  type Marks = map<Uid, Uid>

  /**
   `m` is `m0` with all victims of the tasks `full` marked, some victims of the tasks `part`
   marked, and nothing else changed.
  */
  ghost predicate Marked(m0: Marks, m: Marks, info: Infos, full: set<Uid>, part: set<Uid>) {
    && (forall v :: v in m0 ==> v in m && m[v] == m0[v])
    && (forall u, v :: u in full && u in info && v in info[u].task.victims ==> v in m && m[v] == u)
    && (forall v :: v in m ==>
          || v in m0
          || (m[v] in full + part && m[v] in info && v in info[m[v]].task.victims))
  }

  /** A victim can be marked while it is a confirmed pod of the cache. */
  ghost predicate Markable(states: map<Uid, PodState>, t: Task) {
    forall v :: v in t.victims ==> v in states && !states[v].assumed
  }

  lemma MarkOne(m0: Marks, m: Marks, info: Infos, full: set<Uid>, part: set<Uid>, u: Uid, v: Uid)
    requires Marked(m0, m, info, full, part) && Exclusive(info)
    requires u in info && u !in full && u in part && v in info[u].task.victims && v !in m0
    ensures Marked(m0, m[v := u], info, full, part)
  {
  }

  lemma UnmarkOne(m0: Marks, m: Marks, info: Infos, full: set<Uid>, part: set<Uid>, u: Uid, v: Uid)
    requires Marked(m0, m, info, full, part) && Exclusive(info)
    requires u in info && u !in full && v in info[u].task.victims && v !in m0
    ensures Marked(m0, m - {v}, info, full, part)
  {
  }

  lemma AllMarked(m0: Marks, m: Marks, info: Infos, full: set<Uid>, part: set<Uid>, u: Uid)
    requires Marked(m0, m, info, full, part + {u}) && u in info
    requires forall v :: v in info[u].task.victims ==> v in m && m[v] == u
    ensures Marked(m0, m, info, full + {u}, part)
  {
  }

  lemma NoneMarked(m0: Marks, m: Marks, info: Infos, full: set<Uid>, part: set<Uid>, u: Uid)
    requires Marked(m0, m, info, full, part) && u in info && u !in full
    requires forall v :: v in info[u].task.victims ==> v !in m || m[v] != u || v in m0
    ensures Marked(m0, m, info, full, part - {u})
  {
  }

  /** Weakening: what is fully marked may be reported as partly marked. */
  lemma Demote(m0: Marks, m: Marks, info: Infos, full: set<Uid>, part: set<Uid>, full': set<Uid>, part': set<Uid>)
    requires Marked(m0, m, info, full, part) && full' <= full && full + part <= full' + part'
    ensures Marked(m0, m, info, full', part')
  {
  }

  /** Marks the victims of one task until one cannot be marked. */
  method MarkTask(cache: BinderCache, t: Task, ghost m0: Marks, ghost info: Infos, ghost full: set<Uid>, ghost part: set<Uid>)
    returns (ok: bool)
    requires cache.Valid() && Exclusive(info)
    requires t.uid in info && info[t.uid].task == t && t.victims !! m0.Keys
    requires Marked(m0, cache.markers, info, full, part) && t.uid !in full
    modifies cache`markers
    ensures cache.Valid()
    ensures ok <==> Markable(cache.states, t)
    ensures Marked(m0, cache.markers, info, if ok then full + {t.uid} else full, if ok then part else part + {t.uid})
  {
    hide Marked, Exclusive, NodesAgree;
    Demote(m0, cache.markers, info, full, part, full, part + {t.uid});
    var todo := t.victims;
    while todo != {}
      invariant cache.Valid() && todo <= t.victims
      invariant Marked(m0, cache.markers, info, full, part + {t.uid})
      invariant forall v :: v in t.victims - todo ==>
        v in cache.states && !cache.states[v].assumed && v in cache.markers && cache.markers[v] == t.uid
    {
      var v :| v in todo;
      MarkOne(m0, cache.markers, info, full, part + {t.uid}, t.uid, v);
      // a confirmed pod does not change its node, so its object and the cache agree on it
      var fatal;
      ok, fatal := cache.MarkPodToDelete(v, if v in cache.states then cache.states[v].node else "", t.uid);
      if !ok {
        return;
      }
      todo := todo - {v};
    }
    AllMarked(m0, cache.markers, info, full, part, t.uid);
    ok := true;
  }

  /** Takes back the marks one task set. */
  method UnmarkTask(cache: BinderCache, t: Task, ghost m0: Marks, ghost info: Infos, ghost full: set<Uid>, ghost part: set<Uid>)
    requires cache.Valid() && Exclusive(info)
    requires t.uid in info && info[t.uid].task == t && t.victims !! m0.Keys
    requires Marked(m0, cache.markers, info, full, part) && t.uid !in full
    modifies cache`markers
    ensures cache.Valid()
    ensures Marked(m0, cache.markers, info, full, part - {t.uid})
  {
    hide Marked, Exclusive, NodesAgree;
    var todo := t.victims;
    while todo != {}
      invariant cache.Valid() && todo <= t.victims
      invariant Marked(m0, cache.markers, info, full, part)
      invariant forall v :: v in t.victims - todo ==> v !in cache.markers || cache.markers[v] != t.uid
    {
      var v :| v in todo;
      UnmarkOne(m0, cache.markers, info, full, part, t.uid, v);
      cache.RemoveDeletePodMarker(v, t.uid);
      todo := todo - {v};
    }
    NoneMarked(m0, cache.markers, info, full, part, t.uid);
  }

  /** The tasks of `s` on one of the nodes. */
  ghost function On(s: set<Uid>, info: Infos, nodes: set<NodeName>): set<Uid> {
    set u | u in s && u in info && info[u].task.node in nodes
  }

  /** The nodes that cannot have all their victims marked. */
  ghost predicate IsFailedNode(states: map<Uid, PodState>, info: Infos, waiting: set<Uid>, n: NodeName) {
    exists u :: u in waiting && u in info && info[u].task.node == n && !Markable(states, info[u].task)
  }

  /** The marking stage: it fails nodes, sets marks and leaves the rest alone. */
  ghost predicate MarksNodes(
    p0: Placement, p1: Placement, info: Infos, states: map<Uid, PodState>, failed: set<NodeName>, m0: Marks, m1: Marks)
  {
    && p1 == Relocate(p0, On(NewcomersAt(p0, info, Waiting), info, failed), Failed)
    && (forall n :: n in failed <==> IsFailedNode(states, info, NewcomersAt(p0, info, Waiting), n))
    && Marked(m0, m1, info, NewcomersAt(p1, info, Waiting), {})
  }

  ghost predicate MarkingOk(
    states: map<Uid, PodState>, info: Infos, waiting: set<Uid>, todo: set<Uid>, failed: set<NodeName>,
    m0: Marks, m: Marks)
  {
    var done := waiting - todo;
    && Marked(m0, m, info, done - On(done, info, failed), On(done, info, failed))
    && (forall n :: n in failed ==> IsFailedNode(states, info, waiting, n))
    && (forall u :: u in done && u in info && info[u].task.node !in failed ==> Markable(states, info[u].task))
  }

  lemma MarkStep(
    states: map<Uid, PodState>, info: Infos, waiting: set<Uid>, todo: set<Uid>, failed: set<NodeName>,
    m0: Marks, m: Marks, u: Uid, ok: bool, m': Marks)
    requires MarkingOk(states, info, waiting, todo, failed, m0, m)
    requires u in todo && todo <= waiting && u in info && info[u].task.node !in failed
    requires ok <==> Markable(states, info[u].task)
    requires
      var done := waiting - todo;
      var full, part := done - On(done, info, failed), On(done, info, failed);
      Marked(m0, m', info, if ok then full + {u} else full, if ok then part else part + {u})
    ensures MarkingOk(states, info, waiting, todo - {u}, if ok then failed else failed + {info[u].task.node}, m0, m')
  {
    hide Markable, Marked;
    var failed' := if ok then failed else failed + {info[u].task.node};
    var done, done' := waiting - todo, waiting - (todo - {u});
    var full, part := done - On(done, info, failed), On(done, info, failed);
    assert done' == done + {u};
    Demote(m0, m', info, if ok then full + {u} else full, if ok then part else part + {u},
           done' - On(done', info, failed'), On(done', info, failed'));
    forall n | n in failed'
      ensures IsFailedNode(states, info, waiting, n)
    {
      if n !in failed {
        assert u in waiting && info[u].task.node == n && !Markable(states, info[u].task);
      }
    }
  }

  lemma SkipStep(
    states: map<Uid, PodState>, info: Infos, waiting: set<Uid>, todo: set<Uid>, failed: set<NodeName>,
    m0: Marks, m: Marks, u: Uid)
    requires MarkingOk(states, info, waiting, todo, failed, m0, m)
    requires u in todo && todo <= waiting && u in info && info[u].task.node in failed
    ensures MarkingOk(states, info, waiting, todo - {u}, failed, m0, m)
  {
    hide Markable, Marked;
    var done, done' := waiting - todo, waiting - (todo - {u});
    assert done' == done + {u};
    Demote(m0, m, info, done - On(done, info, failed), On(done, info, failed),
           done' - On(done', info, failed), On(done', info, failed));
  }

  /** First pass: mark, node by node giving up at the first victim that cannot be marked. */
  method MarkWaiting(cache: BinderCache, tasks: map<Uid, Task>, ghost info: Infos)
    returns (failed: set<NodeName>)
    requires cache.Valid() && Exclusive(info)
    requires forall u :: u in tasks ==>
      u in info && info[u].task == tasks[u] && tasks[u].uid == u && tasks[u].victims !! cache.markers.Keys
    modifies cache`markers
    ensures cache.Valid()
    ensures MarkingOk(cache.states, info, tasks.Keys, {}, failed, old(cache.markers), cache.markers)
  {
    hide MarkingOk, Exclusive, NodesAgree, Marked, Markable, On;
    ghost var m0 := cache.markers;
    var todo := tasks.Keys;
    failed := {};
    MarkingStarts(cache.states, info, tasks.Keys, m0);
    while todo != {}
      invariant cache.Valid() && todo <= tasks.Keys
      invariant MarkingOk(cache.states, info, tasks.Keys, todo, failed, m0, cache.markers)
    {
      var u :| u in todo;
      ghost var m := cache.markers;
      if tasks[u].node in failed {
        SkipStep(cache.states, info, tasks.Keys, todo, failed, m0, m, u);
      } else {
        ghost var done := tasks.Keys - todo;
        MarkingHas(cache.states, info, tasks.Keys, todo, failed, m0, m);
        var ok := MarkTask(cache, tasks[u], m0, info, done - On(done, info, failed), On(done, info, failed));
        MarkStep(cache.states, info, tasks.Keys, todo, failed, m0, m, u, ok, cache.markers);
        failed := if ok then failed else failed + {tasks[u].node};
      }
      todo := todo - {u};
    }
  }

  lemma MarkingStarts(states: map<Uid, PodState>, info: Infos, waiting: set<Uid>, m0: Marks)
    ensures MarkingOk(states, info, waiting, waiting, {}, m0, m0)
  {
    assert waiting - waiting == {};
  }

  lemma MarkingHas(
    states: map<Uid, PodState>, info: Infos, waiting: set<Uid>, todo: set<Uid>, failed: set<NodeName>,
    m0: Marks, m: Marks)
    requires MarkingOk(states, info, waiting, todo, failed, m0, m)
    ensures
      var done := waiting - todo;
      Marked(m0, m, info, done - On(done, info, failed), On(done, info, failed))
  {
  }

  /** Second pass: take back every mark of the tasks on failed nodes. */
  method UnmarkFailed(
    cache: BinderCache, tasks: map<Uid, Task>, failed: set<NodeName>, ghost info: Infos, ghost m0: Marks)
    requires cache.Valid() && Exclusive(info)
    requires forall u :: u in tasks ==>
      u in info && info[u].task == tasks[u] && tasks[u].uid == u && tasks[u].victims !! m0.Keys
    requires Marked(m0, cache.markers, info,
      tasks.Keys - On(tasks.Keys, info, failed), On(tasks.Keys, info, failed))
    modifies cache`markers
    ensures cache.Valid()
    ensures Marked(m0, cache.markers, info, tasks.Keys - On(tasks.Keys, info, failed), {})
  {
    hide Exclusive, NodesAgree, Marked;
    var todo := set u | u in tasks && tasks[u].node in failed;
    ghost var bad := On(tasks.Keys, info, failed);
    assert todo == bad;
    while todo != {}
      invariant cache.Valid() && todo <= bad
      invariant Marked(m0, cache.markers, info, tasks.Keys - bad, todo)
    {
      var u :| u in todo;
      UnmarkTask(cache, tasks[u], m0, info, tasks.Keys - bad, todo);
      todo := todo - {u};
    }
  }

  /** Third pass: fail the waiting new tasks of every failed node. */
  method FailNodes(unit: BindingUnitInfo, failed: set<NodeName>)
    requires unit.Valid()
    modifies unit
    ensures unit.Valid() && unit.info == old(unit.info)
    ensures unit.place == Relocate(old(unit.place),
      On(NewcomersAt(old(unit.place), unit.info, Waiting), unit.info, failed), Failed)
  {
    hide Consistent;
    ghost var w := NewcomersAt(unit.place, unit.info, Waiting);
    var todo := failed;
    unit.KnownInfo();
    while todo != {}
      invariant unit.Valid() && unit.info == old(unit.info) && todo <= failed
      invariant unit.place == Relocate(old(unit.place), On(w, unit.info, failed - todo), Failed)
    {
      var n :| n in todo;
      unit.MoveAllNewTasksOnNodeFromWaitingToFailedList(n);
      todo := todo - {n};
    }
  }

  /**
   Marks the victims of all waiting new tasks. A node fails exactly if some victim on it is
   not a confirmed pod of the cache; its waiting new tasks then fail and leave no mark. All
   other waiting new tasks end with all their victims marked for them, and the marks that
   were there before are all still there.
  */
  method MarkVictimsOfNewTasks(unit: BindingUnitInfo, cache: BinderCache) returns (failed: set<NodeName>)
    requires unit.Valid() && cache.Valid() && Exclusive(unit.info)
    requires forall u :: u in NewcomersAt(unit.place, unit.info, Waiting) ==>
      unit.info[u].task.victims !! cache.markers.Keys
    modifies unit, cache`markers
    ensures unit.Valid() && cache.Valid() && unit.info == old(unit.info)
    ensures unit.place == Relocate(old(unit.place),
      On(NewcomersAt(old(unit.place), unit.info, Waiting), unit.info, failed), Failed)
    ensures forall n :: n in failed <==>
      IsFailedNode(cache.states, unit.info, NewcomersAt(old(unit.place), unit.info, Waiting), n)
    ensures Marked(old(cache.markers), cache.markers, unit.info, NewcomersAt(unit.place, unit.info, Waiting), {})
  {
    hide Consistent, Exclusive, NodesAgree, Marked, MarkingOk, IsFailedNode;
    ghost var info, w, m0 := unit.info, NewcomersAt(unit.place, unit.info, Waiting), cache.markers;
    unit.KnownInfo();
    unit.ListsAre();
    var tasks := map u | u in unit.waitingTasks && !unit.waitingTasks[u].assumed :: unit.waitingTasks[u].task;
    assert tasks.Keys == w;
    failed := MarkWaiting(cache, tasks, info);
    MarkingDone(cache.states, info, w, failed, m0, cache.markers);
    UnmarkFailed(cache, tasks, failed, info, m0);
    FailNodes(unit, failed);
    assert NewcomersAt(unit.place, info, Waiting) == w - On(w, info, failed);
  }

  lemma MarkingDone(
    states: map<Uid, PodState>, info: Infos, waiting: set<Uid>, failed: set<NodeName>, m0: Marks, m: Marks)
    requires MarkingOk(states, info, waiting, {}, failed, m0, m)
    ensures Marked(m0, m, info, waiting - On(waiting, info, failed), On(waiting, info, failed))
    ensures forall n :: n in failed <==> IsFailedNode(states, info, waiting, n)
  {
    hide Marked;
    assert waiting - {} == waiting;
  }
}
