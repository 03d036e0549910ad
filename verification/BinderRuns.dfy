/**
 The queue and the attempts together: what an attempt puts back is enough, so over the runs of
 a binder units go astray only through deletions and lost scheduling marks.
*/
module BinderRuns {

  import opened BinderTypes
  import opened BinderQueue
  import opened QueueRuns
  import Placements
  import BindingUnit
  import Marking
  import Assuming
  import Attempt
  import Workflow
  import Verdicts
  import CheckAndBind

  /** The unit that an attempt puts back holds exactly the pods that wait. */
  ghost predicate BackFrom(u: Unit, r: Attempt.Outcome, unit: BindingUnit.BindingUnitInfo) {
    && u.pods.Keys == r.requeued && u.minMember == unit.minMember
    && (u.key.single <==> !unit.isPodGroup)
  }

  /** That the PodGroup was scheduled, as the attempt found it or left it, is still known. */
  ghost predicate MarkStands(u: Unit, r: Attempt.Outcome, unit: BindingUnit.BindingUnitInfo, env: Env) {
    unit.everScheduled || r.markedScheduled ==> env.scheduled(u.key)
  }

  /** A unit that is enough whatever was queued for it meanwhile. */
  ghost predicate EnoughAlone(u: Unit, env: Env) {
    u.key.single || env.scheduled(u.key) || |u.pods| >= u.minMember
  }

  /** What an attempt puts back is enough by itself while the mark stands. */
  lemma AttemptPutsBackEnough(
    u: Unit, r: Attempt.Outcome, unit: BindingUnit.BindingUnitInfo, p: Placements.Placement, env: Env)
    requires Attempt.GangSafe(r, unit, p) && BackFrom(u, r, unit) && r.requeued != {} && MarkStands(u, r, unit, env)
    ensures EnoughAlone(u, env)
  {
    Attempt.PutsBackEnough(r, unit, p);
    assert |u.pods.Keys| == |u.pods|;
  }

  lemma EnoughWithMore(u: Unit, before: Option<Slot>, env: Env)
    requires EnoughAlone(u, env)
    ensures Enough(u, before, env)
  {
    assert |u.pods.Keys| == |u.pods|;
    MoreKeys(u.pods.Keys, UnionOf(u, before));
  }

  /** Everything put back in a run comes from an attempt whose mark stands. */
  ghost predicate AttemptsPutBack(envs: seq<Env>, ops: seq<Op>) {
    |envs| == |ops| + 1 &&
    forall j :: 0 <= j < |ops| && ops[j].PutBack? ==> EnoughAlone(ops[j].unit, envs[j])
  }

  ghost predicate NoPodOrMarkMissed(views: seq<View>, envs: seq<Env>, ops: seq<Op>, keyOf: Uid -> Key)
    requires |views| == |ops| + 1 && |envs| == |ops| + 1
  {
    forall j :: 0 <= j < |ops| && (ops[j].Remove? || ops[j].Status?) ==> Harmless(ops[j], views[j], envs[j], keyOf)
  }

  /** In a run of the binder units go astray exactly through deletions and marks that are taken away. */
  lemma StraysOverBinderRuns(views: seq<View>, envs: seq<Env>, ops: seq<Op>, keyOf: Uid -> Key, over: Unit -> int)
    requires IsRun(views, envs, ops, keyOf, over) && NoStrays(views[0], envs[0]) && AttemptsPutBack(envs, ops)
    ensures (forall k :: 0 <= k < |views| ==> NoStrays(views[k], envs[k])) <==>
      NoPodOrMarkMissed(views, envs, ops, keyOf)
  {
    hide NoStrays, Effect, ViewOk, LosesMinimum, NeedsStatus, Enough, EnoughAlone;
    StraysOverRuns(views, envs, ops, keyOf, over);
    forall j | 0 <= j < |ops| && ops[j].PutBack?
      ensures Harmless(ops[j], views[j], envs[j], keyOf)
    {
      EnoughWithMore(ops[j].unit, At(views[j], ops[j].unit.key), envs[j]);
    }
  }

  /** The unit that goes back: the popped one with the pods that wait. */
  function Remaining(u: Unit, requeued: set<Uid>): Unit {
    u.(pods := map id | id in u.pods && id in requeued :: u.pods[id])
  }

  lemma RemainingOk(u: Unit, keyOf: Uid -> Key, requeued: set<Uid>)
    requires UnitOk(u, u.key, keyOf) && requeued != {} && requeued <= u.pods.Keys
    ensures UnitOk(Remaining(u, requeued), u.key, keyOf) && Remaining(u, requeued).pods.Keys == requeued
  {
    var back := Remaining(u, requeued);
    assert back.pods.Keys == requeued;
  }

  lemma AttemptedOk(u: Unit, k: Key, keyOf: Uid -> Key)
    requires UnitOk(u, k, keyOf)
    ensures UnitOk(Attempted(u), k, keyOf)
  {
    AttemptedKeeps(u);
  }

  lemma PutsBackNoStray(view: View, view': View, u: Unit, keyOf: Uid -> Key, env: Env)
    requires ViewOk(view, keyOf) && UnitOk(u, u.key, keyOf) && NoStrays(view, env) && u.key in view'
    requires view' == view[u.key := Slot(BackoffQ, view'[u.key].unit)]
    requires Merged(u, At(view, u.key), view'[u.key].unit) && EnoughAlone(u, env)
    ensures NoStrays(view', env)
  {
    hide UnitOk, Merged, NoStrays, Enough, EnoughAlone, ViewOk;
    EnoughWithMore(u, At(view, u.key), env);
    PutBackStrays(view, view', u, keyOf, env);
  }

  lemma MarkingIsHarmless(view: View, keyOf: Uid -> Key, scheduled: Key -> bool, key: Key)
    requires ViewOk(view, keyOf) && NoStrays(view, Env(_ => None, scheduled))
    ensures NoStrays(view, Env(_ => None, Marked(scheduled, key, true)))
  {
    StatusStrays(view, keyOf, Env(_ => None, scheduled), Env(_ => None, Marked(scheduled, key, true)), key, true);
  }

  /**
   What a round leaves of the queue: the unit was ready and is gone, but for the pods that wait,
   which go back to be retried later.
  */
  ghost predicate Turned(view: View, view': View, k: Key, requeued: set<Uid>) {
    && k in view && view[k].heap == ReadyQ && requeued <= view[k].unit.pods.Keys
    && view' - {k} == view - {k}
    && (k in view' <==> requeued != {})
    && (k in view' ==>
          && view'[k].heap == BackoffQ && view'[k].unit.pods.Keys == requeued
          && view'[k].unit.minMember == view[k].unit.minMember
          && view'[k].unit.attempts == view[k].unit.attempts + 1)
  }

  /** The scheduling marks after an attempt. */
  function MarksAfter(scheduled: Key -> bool, k: Key, r: Attempt.Outcome): Key -> bool {
    if r.markedScheduled then Marked(scheduled, k, true) else scheduled
  }

  /** An attempt of a popped unit: what waits of it is enough. */
  method AttemptUnit(binder: Workflow.Binder, u: Unit, scheduled: Key -> bool, verdicts: Verdicts.Env)
    returns (r: Attempt.Outcome)
    requires binder.QueueOk() && binder.cache.Valid() && u.pods.Keys <= binder.queued.Keys
    modifies binder`queued, binder.cache
    ensures binder.QueueOk() && binder.cache.Valid() && binder.queued.Keys == old(binder.queued).Keys
    ensures r.requeued <= u.pods.Keys
    ensures r.requeued != {} ==> EnoughAlone(Remaining(u, r.requeued), Env(_ => None, MarksAfter(scheduled, u.key, r)))
  {
    hide *;
    ghost var m, s := binder.cache.markers, binder.cache.states;
    var unit; ghost var trace, way;
    r, unit, trace, way :=
      CheckAndBind.CheckAndBindUnit(binder, u.pods.Keys, !u.key.single, u.minMember, scheduled(u.key), verdicts);
    EnoughWaits(u, r, unit, binder.queued, m, binder.cache.markers, s, binder.cache.states, verdicts, scheduled);
  }

  lemma EnoughWaits(
    u: Unit, r: Attempt.Outcome, unit: BindingUnit.BindingUnitInfo, queued: Assuming.Queued,
    m0: Marking.Marks, m: Marking.Marks, s0: Assuming.States, s: Assuming.States,
    verdicts: Verdicts.Env, scheduled: Key -> bool)
    requires CheckAndBind.AttemptOk(r, unit, unit.place, unit.info, queued, m0, m, s0, s, verdicts)
    requires unit.place.Keys == u.pods.Keys && unit.isPodGroup == !u.key.single && unit.minMember == u.minMember
    requires unit.everScheduled == scheduled(u.key)
    ensures r.requeued <= u.pods.Keys
    ensures r.requeued != {} ==> EnoughAlone(Remaining(u, r.requeued), Env(_ => None, MarksAfter(scheduled, u.key, r)))
  {
    hide Attempt.Settles, Attempt.GangSafe, CheckAndBind.CacheOutcome, EnoughAlone;
    WaitingAmong(r, unit);
    if r.requeued != {} {
      assert Remaining(u, r.requeued).pods.Keys == r.requeued;
      AttemptPutsBackEnough(
        Remaining(u, r.requeued), r, unit, unit.place, Env(_ => None, MarksAfter(scheduled, u.key, r)));
    }
  }

  /** What waits goes back into the queue. */
  method PutBackRest(q: PriorityQueue, u: Unit, requeued: set<Uid>, now: int, ghost env: Env)
    requires q.Valid() && UnitOk(u, u.key, q.keyOf) && u.key !in q.View() && requeued <= u.pods.Keys
    requires requeued != {} ==> EnoughAlone(Remaining(u, requeued), env)
    modifies q
    ensures q.Valid()
    ensures requeued == {} ==> q.View() == old(q.View())
    ensures requeued != {} ==>
      && u.key in q.View() && q.View() == old(q.View())[u.key := Slot(BackoffQ, q.View()[u.key].unit)]
      && Merged(Remaining(u, requeued), None, q.View()[u.key].unit)
      && q.View()[u.key].unit.attempts == u.attempts
    ensures old(NoStrays(q.View(), env)) ==> NoStrays(q.View(), env)
  {
    hide NoStrays, PriorityQueue.Sound, UnitOk, Merged, ViewOf, EnoughAlone, OnlyPoppable;
    if requeued != {} {
      RemainingOk(u, q.keyOf, requeued);
      q.ViewIsOk();
      ghost var view := q.View();
      q.AddUnitPreemptor(Remaining(u, requeued), now);
      if NoStrays(view, env) {
        PutsBackNoStray(view, q.View(), Remaining(u, requeued), q.keyOf, env);
      }
    }
  }

  /**
   A round of the main loop: the next unit is popped and attempted, and what waits goes back.
   Whatever the verdicts, a round sends no unit astray.
  */
  method Round(q: PriorityQueue, binder: Workflow.Binder, scheduled: Key -> bool, verdicts: Verdicts.Env, now: int)
    returns (scheduled': Key -> bool, ghost turn: Option<(Key, Attempt.Outcome)>)
    requires q.Valid() && binder.QueueOk() && binder.cache.Valid()
    requires forall id :: q.Has(id) ==> id in binder.queued
    modifies q, binder`queued, binder.cache
    ensures q.Valid() && binder.QueueOk() && binder.cache.Valid() && binder.queued.Keys == old(binder.queued.Keys)
    ensures old(NoStrays(q.View(), Env(_ => None, scheduled))) ==> NoStrays(q.View(), Env(_ => None, scheduled'))
    ensures turn == None <==> old(q.ready) == map[]
    ensures match turn
      case None =>
        && q.View() == old(q.View()) && scheduled' == scheduled && binder.queued == old(binder.queued)
        && binder.cache.markers == old(binder.cache.markers) && binder.cache.states == old(binder.cache.states)
      case Some((k, r)) =>
        && Turned(old(q.View()), q.View(), k, r.requeued)
        && (forall key :: scheduled'(key) <==> scheduled(key) || (key == k && r.markedScheduled))
  {
    hide NoStrays, PriorityQueue.Sound, UnitOk, Tended, Merged, ViewOf, NoWorse, OnlyPoppable, EnoughAlone, Turned;
    ghost var env := Env(_ => None, scheduled);
    ghost var view0 := q.View();
    q.ViewIsOk();
    var popped := q.Pop();
    q.ViewIsOk();
    assert Tended(view0, q.View(), env);
    if NoStrays(view0, env) {
      TendedNoWorse(view0, q.View(), env);
      NoWorseNoStrays(view0, q.View(), env);
    }
    if popped == None {
      return scheduled, None;
    }
    var u := popped.value;
    AttemptedKeeps(view0[u.key].unit);
    AttemptedOk(view0[u.key].unit, u.key, q.keyOf);
    var r := AttemptUnit(binder, u, scheduled, verdicts);
    turn := Some((u.key, r));
    scheduled' := MarksAfter(scheduled, u.key, r);
    if NoStrays(view0, env) && r.markedScheduled {
      MarkingIsHarmless(q.View(), q.keyOf, scheduled, u.key);
    }
    PutBackRest(q, u, r.requeued, now, Env(_ => None, scheduled'));
    if r.requeued == {} {
      GoneForGood(view0, u.key);
    } else {
      GoneBack(view0, q.View(), u.key, r.requeued);
    }
  }

  lemma GoneForGood(view: View, k: Key)
    requires k in view && view[k].heap == ReadyQ
    ensures Turned(view, view - {k}, k, {})
  {
  }

  lemma GoneBack(view: View, view': View, k: Key, requeued: set<Uid>)
    requires k in view && view[k].heap == ReadyQ && k in view' && requeued != {}
    requires requeued <= view[k].unit.pods.Keys
    requires view' == (view - {k})[k := Slot(BackoffQ, view'[k].unit)]
    requires Merged(Remaining(Attempted(view[k].unit), requeued), None, view'[k].unit)
    requires view'[k].unit.attempts == view[k].unit.attempts + 1
    ensures Turned(view, view', k, requeued)
  {
    assert view' - {k} == view - {k};
    AttemptedKeeps(view[k].unit);
    assert Remaining(Attempted(view[k].unit), requeued).pods.Keys == requeued;
    assert view'[k].unit.pods.Keys == requeued;
  }

  lemma WaitingAmong(r: Attempt.Outcome, unit: BindingUnit.BindingUnitInfo)
    requires Attempt.Accounts(r, unit.place)
    ensures r.requeued <= unit.place.Keys
  {
  }
}
