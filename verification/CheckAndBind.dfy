/** The main loop body: the six stages of a binding attempt, one after the other. */
module CheckAndBind {

  import opened BinderTypes
  import opened Placements
  import opened UnitLists
  import opened BindingUnit
  import opened Caches
  import opened SameNode
  import opened Workflow
  import opened Marking
  import opened Assuming
  import opened Attempt
  import opened Verdicts
  import opened Course

  /** No task of the unit wants a victim that somebody has marked. */
  ghost predicate Clean(info: Infos, m: Marks) {
    forall u :: u in info ==> info[u].task.victims !! m.Keys
  }

  /** Ready new tasks preempt nobody. */
  ghost predicate ReadyHarmless(p: Placement, info: Infos) {
    forall u :: u in p && u in info && p[u] == Ready && !info[u].assumed ==> info[u].task.victims == {}
  }

  lemma InitializedClean(p: Placement, info: Infos, queued: Queued, m: Marks)
    requires Initialized(p, info, queued, m)
    ensures Clean(info, m)
  {
  }

  /** Before the same-node check, every task on the ready and waiting lists is an old one. */
  lemma NothingAdmittedYet(p0: Placement, p1: Placement, p2: Placement, info: Infos, queued: Queued, m: Marks)
    requires Initialized(p0, info, queued, m) && AfterPreemption(p0, p1) && Sunk(p1, p2)
    ensures forall n :: Admitted(p2, info, n) == {}
    ensures forall u :: u in p2 && (p2[u] == Ready || p2[u] == Waiting) ==> p0[u] == Assumed
    ensures forall u :: u in p2 && p2[u] == New ==> p0[u] == New
    ensures At(p2, Assumed) == {} && p2.Keys == p0.Keys
  {
    forall u | u in p2
      ensures p2[u] == Ready || p2[u] == Waiting ==> p0[u] == Assumed
      ensures p2[u] == New ==> p0[u] == New
      ensures p2[u] != Assumed
    {
    }
  }

  /** After it, the unit satisfies what marking and assuming ask for. */
  lemma StagesChecked(p0: Placement, p2: Placement, p3: Placement, info: Infos, queued: Queued, m: Marks)
    requires Initialized(p0, info, queued, m) && Exclusive(info) && SinceStart(p2, p3) && p2.Keys == p0.Keys
    requires forall u :: u in p2 && (p2[u] == Ready || p2[u] == Waiting) ==> p0[u] == Assumed
    requires forall u :: u in p2 && p2[u] == New ==> p0[u] == New
    requires forall u :: u in queued && queued[u].inHandling ==> queued[u].reserved.Some?
    ensures Checked(p3, info, queued, m)
  {
    hide Exclusive;
    forall u | u in p3 && (p3[u] == Ready || p3[u] == Waiting)
      ensures p0[u] == Assumed || p0[u] == New
    {
    }
  }

  lemma SoundIsHarmless(p: Placement, info: Infos, nodes: map<NodeName, NodeInfo>, req: Requests)
    requires forall n :: AdmissionSound(p, info, nodes, req, n)
    ensures ReadyHarmless(p, info)
  {
    forall u | u in p && u in info && p[u] == Ready && !info[u].assumed
      ensures info[u].task.victims == {}
    {
      var n := info[u].task.node;
      assert AdmissionSound(p, info, nodes, req, n);
      assert u in Admitted(p, info, n);
      assert info[u].task.victims <= Preempted(Admitted(p, info, n), info);
    }
  }

  /**
   When the attempt is over, the marks are those from before it, untouched, plus the marks
   of exactly the new tasks that went back into the queue.
  */
  lemma MarksEnd(
    m0: Marks, m: Marks, info: Infos, marking: set<Uid>, p4: Placement, p5: Placement, failed: Infos)
    requires Marked(m0, m, info, marking, {}) && Clean(info, m0) && p5.Keys == info.Keys
    requires NewcomersAt(p4, info, Waiting) <= marking
    requires forall u :: u in marking ==> u in p4 && u in info && !info[u].assumed && (p4[u] == Waiting || p4[u] == Failed)
    requires Ends(p4, p5) && ReadyHarmless(p4, info) && FailedAgrees(failed, p5, info)
    ensures Marked(m0, Released(m, failed), info, NewcomersAt(p5, info, Waiting), {})
  {
    var m', waiting := Released(m, failed), NewcomersAt(p5, info, Waiting);
    assert forall u :: u in info && p5[u] == Failed ==> u in failed && FailureOf(failed[u], info[u]);
    forall u, v | u in waiting && v in info[u].task.victims
      ensures v in m' && m'[v] == u
    {
      assert u in NewcomersAt(p4, info, Waiting);
      assert u !in failed;
    }
    forall v | v in m' && v !in m0
      ensures m'[v] in waiting && v in info[m'[v]].task.victims
    {
      var u := m[v];
      assert u in marking && v in info[u].task.victims;
    }
  }

  /** A unit that fails before its victims are marked leaves no mark behind. */
  lemma NoMarksEnd(m0: Marks, info: Infos, p: Placement, failed: Infos)
    requires Clean(info, m0) && p.Keys == info.Keys && FailedAgrees(failed, p, info)
    requires At(p, Waiting) == {}
    ensures Marked(m0, Released(m0, failed), info, NewcomersAt(p, info, Waiting), {})
  {
    forall v | v in m0
      ensures v in Released(m0, failed)
    {
      assert m0[v] in failed ==> failed[m0[v]].task.victims == info[m0[v]].task.victims;
    }
    assert NewcomersAt(p, info, Waiting) <= At(p, Waiting);
  }

  /** What the cache may have lost and gained in an attempt on the pods `pods`. */
  ghost predicate CacheOutcome(
    s0: States, s: States, p: Placement, info: Infos, forgetOk: Uid -> bool)
  {
    // pods of other units are as they were
    && (forall u :: u in s0 && u !in p ==> u in s && s[u] == s0[u])
    && (forall u :: u in s && u !in p ==> u in s0)
    // a new task that is bound or goes back into the queue is assumed on its node
    && (forall u :: u in p && u in info && (p[u] == Ready || p[u] == Waiting) && !info[u].assumed ==>
          u in s && s[u] == PodState(info[u].task.node, true))
    // a rejected task that could be forgotten is not in the cache because of this attempt
    && (forall u :: u in p && p[u] == Failed && forgetOk(u) && u in s ==> u in s0)
  }

  lemma KeptOutcome(
    s0: States, s4: States, p4: Placement, p5: Placement, info: Infos, queued: Queued, failed: Infos,
    forgetOk: Uid -> bool)
    requires Gained(s0, s4, queued, p4.Keys) && Ends(p4, p5)
    requires forall u :: u in p5 && u in info && (p5[u] == Ready || p5[u] == Waiting) && !info[u].assumed ==>
      u in s4 && s4[u] == PodState(info[u].task.node, true)
    requires p5.Keys == info.Keys && FailedAgrees(failed, p5, info)
    ensures CacheOutcome(s0, Kept(s4, failed, queued, forgetOk), p5, info, forgetOk)
  {
    hide Held;
    var s := Kept(s4, failed, queued, forgetOk);
    forall u | u in p5 && p5[u] == Failed && forgetOk(u) && u in s4 && u !in s0
      ensures u !in s
    {
      GainedForgotten(s0, s4, queued, p4.Keys, failed, forgetOk, u);
    }
  }

  lemma GainedForgotten(
    s0: States, s4: States, queued: Queued, pods: set<Uid>, failed: Infos, forgetOk: Uid -> bool, u: Uid)
    requires Gained(s0, s4, queued, pods) && u in s4 && u !in s0 && u in failed && forgetOk(u)
    ensures u !in Kept(s4, failed, queued, forgetOk)
  {
    assert Held(queued, u);
  }

  /** What an attempt guarantees, whatever the verdicts. */
  ghost predicate AttemptOk(
    r: Outcome, unit: BindingUnitInfo, p: Placement, info: Infos, queued: Queued,
    m0: Marks, m: Marks, s0: States, s: States, env: Env)
  {
    && !r.fatal
    && Accounts(r, p)
    && Settles(r, unit, p)
    && GangSafe(r, unit, p)
    && (r.reachedBind && unit.isPodGroup ==> env.lockOk)
    && (forall u :: u in r.attempted || u in r.requeued ==> Held(queued, u))
    && (forall u :: u in r.attempted ==> (u in r.bound <==> env.bindOk(u)))
    && Marked(m0, m, info, NewcomersAt(p, info, Waiting), {})
    && CacheOutcome(s0, s, p, info, env.forgetOk)
  }

  /**
   What an attempt did to the cache before it rejected its failed tasks: nothing, or what it
   marked and assumed for the tasks that the same-node check had admitted to their nodes.
  */
  datatype Trace = Early | Full(p3: Placement, did: Effects, m4: Marks, s4: States)

  ghost predicate TraceOk(
    trace: Trace, info: Infos, failed: Infos, nodes: map<NodeName, NodeInfo>, req: Requests, queued: Queued,
    forgetOk: Uid -> bool, m0: Marks, m: Marks, s0: States, s: States)
  {
    && Clean(info, m0) && Exclusive(info)
    && (forall u :: u in info ==> info[u].task.uid == u && (info[u].assumed ==> info[u].task.victims == {}))
    && (forall u :: u in failed ==> u in info && FailureOf(failed[u], info[u]))
    && match trace
       case Early => m == Released(m0, failed) && s == Kept(s0, failed, queued, forgetOk)
       case Full(p3, did, m4, s4) =>
         && p3.Keys == info.Keys
         && (forall n :: AdmissionSound(p3, info, nodes, req, n))
         && EffectsOk(did, p3, info, m0, m4, s0, s4)
         && m == Released(m4, failed) && s == Kept(s4, failed, queued, forgetOk)
  }

  /** What is known of the tasks of a unit whose pods were sorted, and of its failed ones. */
  lemma TraceBase(unit: BindingUnitInfo)
    requires unit.Valid()
    ensures forall u :: u in unit.info ==>
      unit.info[u].task.uid == u && (unit.info[u].assumed ==> unit.info[u].task.victims == {})
    ensures forall u :: u in unit.failedTasks ==> u in unit.info && FailureOf(unit.failedTasks[u], unit.info[u])
  {
    hide Consistent;
    unit.KnownInfo();
    unit.ListsAre();
  }

  lemma EarlyTrace(
    unit: BindingUnitInfo, cache: BinderCache, queued: Queued, forgetOk: Uid -> bool,
    nodes: map<NodeName, NodeInfo>, m0: Marks, s0: States)
    requires unit.Valid() && Clean(unit.info, m0) && Exclusive(unit.info)
    requires cache.markers == Released(m0, unit.failedTasks)
    requires cache.states == Kept(s0, unit.failedTasks, queued, forgetOk)
    ensures TraceOk(Early, unit.info, unit.failedTasks, nodes, cache.request, queued, forgetOk,
                    m0, cache.markers, s0, cache.states)
  {
    hide Consistent, Clean, Exclusive, Released, Kept, FailureOf;
    TraceBase(unit);
  }

  lemma FullTrace(
    unit: BindingUnitInfo, cache: BinderCache, queued: Queued, forgetOk: Uid -> bool, trace: Trace,
    nodes: map<NodeName, NodeInfo>, m0: Marks, s0: States)
    requires unit.Valid() && Clean(unit.info, m0) && Exclusive(unit.info)
    requires trace.Full? && trace.p3.Keys == unit.place.Keys
    requires forall n :: AdmissionSound(trace.p3, unit.info, nodes, cache.request, n)
    requires EffectsOk(trace.did, trace.p3, unit.info, m0, trace.m4, s0, trace.s4)
    requires cache.markers == Released(trace.m4, unit.failedTasks)
    requires cache.states == Kept(trace.s4, unit.failedTasks, queued, forgetOk)
    ensures TraceOk(trace, unit.info, unit.failedTasks, nodes, cache.request, queued, forgetOk,
                    m0, cache.markers, s0, cache.states)
  {
    hide Consistent, Clean, Exclusive, Released, Kept, FailureOf, EffectsOk, AdmissionSound;
    TraceBase(unit);
    FailedListIs(unit);
  }

  /** The unit fails in one of the first four stages: nothing was marked or assumed yet. */
  method RejectEarly(binder: Binder, unit: BindingUnitInfo, env: Env) returns (r: Outcome)
    requires unit.Valid() && unit.Complete() && binder.cache.Valid() && unit.place.Keys <= binder.queued.Keys
    requires Clean(unit.info, binder.cache.markers)
    modifies binder.cache, unit
    ensures unit.Valid() && unit.Complete() && binder.cache.Valid() && unit.info == old(unit.info)
    ensures unit.place.Keys == old(unit.place).Keys
    ensures AttemptOk(r, unit, unit.place, unit.info, binder.queued, old(binder.cache.markers), binder.cache.markers,
                      old(binder.cache.states), binder.cache.states, env)
    ensures GaveUp(r, old(unit.place))
    ensures binder.cache.markers == Released(old(binder.cache.markers), unit.failedTasks)
    ensures binder.cache.states == Kept(old(binder.cache.states), unit.failedTasks, binder.queued, env.forgetOk)
  {
    hide Consistent, NodesAgree, Released, Kept, Marked, Clean, CacheOutcome, Accounts, Ends, At, Live, FailedAgrees, Gained,
         Settles;
    ghost var p, s0, m0 := unit.place, binder.cache.states, binder.cache.markers;
    r := GiveUp(binder, unit, NoBinding(), env.forgetOk);
    ghost var p' := unit.place;
    NothingLives(p);
    NoneLeft(p');
    FailedListIs(unit);
    NoMarksEnd(m0, unit.info, p', unit.failedTasks);
    EndsSame(p);
    EndsAll(p, p);
    GainedRefl(s0, binder.queued, p.Keys);
    KeptOutcome(s0, s0, p, p', unit.info, binder.queued, unit.failedTasks, env.forgetOk);
  }

  lemma NoneLeft(p: Placement)
    requires At(p, Ready) == {} && At(p, Waiting) == {}
    ensures forall u :: u in p ==> p[u] != Ready && p[u] != Waiting
  {
    assert forall u :: u in p && p[u] == Ready ==> u in At(p, Ready);
    assert forall u :: u in p && p[u] == Waiting ==> u in At(p, Waiting);
  }

  lemma FailedListIs(unit: BindingUnitInfo)
    requires unit.Valid()
    ensures FailedAgrees(unit.failedTasks, unit.place, unit.info) && unit.place.Keys == unit.info.Keys
  {
    hide Consistent;
    unit.ListsAre();
    unit.KnownInfo();
  }

  /** What is known of a unit once its victims are marked and its tasks assumed. */
  ghost predicate MarkedAndAssumed(
    unit: BindingUnitInfo, p: Placement, info: Infos, queued: Queued,
    m0: Marks, m: Marks, s0: States, s: States, marking: set<Uid>)
  {
    && p.Keys == info.Keys && p.Keys <= queued.Keys
    && Clean(info, m0)
    && OnlyReadyOrWaiting(p)
    && ReadyHarmless(p, info)
    && Marked(m0, m, info, marking, {})
    && NewcomersAt(p, info, Waiting) <= marking
    && (forall u :: u in marking ==>
          u in p && u in info && !info[u].assumed && (p[u] == Waiting || p[u] == Failed))
    && Gained(s0, s, queued, p.Keys)
    && (!Hopeless(unit, p) ==> Settled(p, info, queued, s))
  }

  /** The last stage, with the verdict on the unit that precedes it. */
  method FinishAttempt(
    binder: Binder, unit: BindingUnitInfo, env: Env, ghost m0: Marks, ghost s0: States, ghost marking: set<Uid>)
    returns (r: Outcome)
    requires unit.Valid() && unit.Complete() && binder.cache.Valid()
    requires MarkedAndAssumed(unit, unit.place, unit.info, binder.queued, m0, binder.cache.markers, s0,
                              binder.cache.states, marking)
    modifies binder.cache, unit
    ensures unit.Valid() && unit.Complete() && binder.cache.Valid() && unit.info == old(unit.info)
    ensures unit.place.Keys == old(unit.place).Keys
    ensures AttemptOk(r, unit, unit.place, unit.info, binder.queued, m0, binder.cache.markers,
                      s0, binder.cache.states, env)
    ensures EndsSo(r, unit, old(unit.place), old(unit.place), unit.info, env)
    ensures binder.cache.markers == Released(old(binder.cache.markers), unit.failedTasks)
    ensures binder.cache.states == Kept(old(binder.cache.states), unit.failedTasks, binder.queued, env.forgetOk)
  {
    hide Consistent, NodesAgree, Released, Kept, Marked, Clean, CacheOutcome, Accounts, At, Live, FailedAgrees,
         Gained, NewcomersAt, Settled, OnlyReadyOrWaiting, ReadyHarmless, Ends, GangSafe, Settles, AttemptOk, Held,
         Concludes;
    ghost var p4, s4, m4, info := unit.place, binder.cache.states, binder.cache.markers, unit.info;
    var failed := unit.IsUnitFailed();
    if failed {
      r := GiveUp(binder, unit, NoBinding(), env.forgetOk);
      NothingLives(p4);
      EndsSame(p4);
      EndsAll(p4, p4);
      NoneLeft(unit.place);
      GaveUpSafe(r, unit, unit.place);
    } else {
      SettledHeld(p4, info, binder.queued, s4);
      r := DeleteVictimsAndBindTasks(binder, unit, env.deleteOk, env.lockOk, env.bindOk, env.forgetOk);
      SettledEnds(p4, unit.place, info, binder.queued, s4);
    }
    FailedListIs(unit);
    EndsKeys(p4, unit.place);
    Assemble(r, unit, p4, unit.place, info, binder.queued, m0, m4, s0, s4, marking, unit.failedTasks, env);
  }

  lemma Assemble(
    r: Outcome, unit: BindingUnitInfo, p4: Placement, p5: Placement, info: Infos, queued: Queued,
    m0: Marks, m4: Marks, s0: States, s4: States, marking: set<Uid>, failed: Infos, env: Env)
    requires MarkedAndAssumed(unit, p4, info, queued, m0, m4, s0, s4, marking)
    requires Ends(p4, p5) && p5.Keys == info.Keys && FailedAgrees(failed, p5, info)
    requires forall u :: u in p5 && u in info && (p5[u] == Ready || p5[u] == Waiting) && !info[u].assumed ==>
      u in s4 && s4[u] == PodState(info[u].task.node, true)
    requires !r.fatal && Accounts(r, p5) && Settles(r, unit, p5) && GangSafe(r, unit, p5)
    requires r.reachedBind && unit.isPodGroup ==> env.lockOk
    requires forall u :: u in r.attempted ==> Held(queued, u)
    requires forall u :: u in r.requeued ==> Held(queued, u)
    requires forall u :: u in r.attempted ==> (u in r.bound <==> env.bindOk(u))
    ensures AttemptOk(r, unit, p5, info, queued, m0, Released(m4, failed),
                      s0, Kept(s4, failed, queued, env.forgetOk), env)
  {
    hide Marked, Clean, CacheOutcome, Accounts, FailedAgrees, Gained, NewcomersAt, Settled, ReadyHarmless, Ends,
         GangSafe, Settles, Released, Kept, OnlyReadyOrWaiting, Hopeless, Held;
    MarksEnd(m0, m4, info, marking, p4, p5, failed);
    KeptOutcome(s0, s4, p4, p5, info, queued, failed, env.forgetOk);
  }

  lemma EndsKeys(p: Placement, p': Placement)
    requires Ends(p, p')
    ensures p'.Keys == p.Keys
  {
  }

  lemma SettledHeld(p: Placement, info: Infos, queued: Queued, s: States)
    requires Settled(p, info, queued, s)
    ensures AllHeld(p, queued)
  {
  }

  lemma SettledEnds(p4: Placement, p5: Placement, info: Infos, queued: Queued, s4: States)
    requires Settled(p4, info, queued, s4) && Ends(p4, p5)
    ensures forall u :: u in p5 && u in info && (p5[u] == Ready || p5[u] == Waiting) && !info[u].assumed ==>
      u in s4 && s4[u] == PodState(info[u].task.node, true)
  {
    assert forall u :: u in p5 && (p5[u] == Ready || p5[u] == Waiting) ==>
      p4[u] == Ready || p4[u] == Waiting || p4[u] == p5[u];
  }

  lemma GaveUpSafe(r: Outcome, unit: BindingUnitInfo, p: Placement)
    requires r == NoBinding().(rejected := r.rejected)
    ensures GangSafe(r, unit, p)
  {
  }

  /** After the same-node check without cancellation, the unit is as marking and assuming leave it. */
  lemma ReadyToFinish(
    unit: BindingUnitInfo, p2: Placement, p3: Placement, p4: Placement, info: Infos, queued: Queued,
    m0: Marks, m: Marks, s0: States, s: States, marking: set<Uid>)
    requires p3.Keys == p4.Keys == info.Keys && p4.Keys <= queued.Keys && Clean(info, m0)
    requires At(p2, Assumed) == {} && SinceStart(p2, p3) && At(p3, New) == {} && ReadyHarmless(p3, info)
    requires Sunk(p3, p4) && Marked(m0, m, info, marking, {})
    requires NewcomersAt(p4, info, Waiting) <= marking <= NewcomersAt(p3, info, Waiting)
    requires Gained(s0, s, queued, p4.Keys)
    requires !Hopeless(unit, p4) ==> Settled(p4, info, queued, s)
    ensures MarkedAndAssumed(unit, p4, info, queued, m0, m, s0, s, marking)
  {
    hide Marked, Clean, Gained, Settled, Hopeless;
    assert At(p3, Assumed) <= At(p2, Assumed);
    assert At(p4, Assumed) <= At(p3, Assumed) && At(p4, New) <= At(p3, New);
  }

  /** The last two stages, for a unit that passed its checks. */
  method BindChecked(binder: Binder, unit: BindingUnitInfo, env: Env, ghost p2: Placement)
    returns (r: Outcome, ghost trace: Trace, ghost p4: Placement)
    requires unit.Valid() && unit.Complete() && binder.cache.Valid() && binder.QueueOk()
    requires unit.place.Keys == unit.info.Keys <= binder.queued.Keys
    requires Checked(unit.place, unit.info, binder.queued, binder.cache.markers)
    requires Clean(unit.info, binder.cache.markers) && Exclusive(unit.info)
    requires At(p2, Assumed) == {} && SinceStart(p2, unit.place) && At(unit.place, New) == {}
    requires forall n :: AdmissionSound(unit.place, unit.info, binder.cache.nodes, binder.cache.request, n)
    modifies binder`queued, binder.cache, unit
    ensures unit.Valid() && unit.Complete() && binder.cache.Valid() && binder.QueueOk() && unit.info == old(unit.info)
    ensures binder.queued.Keys == old(binder.queued).Keys && unit.place.Keys == old(unit.place).Keys == p4.Keys
    ensures AttemptOk(r, unit, unit.place, unit.info, binder.queued,
                      old(binder.cache.markers), binder.cache.markers,
                      old(binder.cache.states), binder.cache.states, env)
    ensures TraceOk(trace, unit.info, unit.failedTasks, old(binder.cache.nodes), binder.cache.request, binder.queued,
                    env.forgetOk, old(binder.cache.markers), binder.cache.markers,
                    old(binder.cache.states), binder.cache.states)
    ensures p4 == AfterAssuming(unit, AfterMarking(old(unit.place), unit.info, old(binder.cache.states)),
                                unit.info, old(binder.cache.states), env.volumesOk, env.storesOk)
    ensures forall u :: u in p4 ==> (p4[u] == Ignored <==> old(unit.place)[u] == Ignored)
    ensures EndsSo(r, unit, p4, p4, unit.info, env)
  {
    hide TraceOk, EffectsOk, Released, Kept, Consistent, NodesAgree, Marked, Clean, At, Gained, NewcomersAt, Settled,
         ReadyHarmless, Exclusive, Sunk, SinceStart, AdmissionSound, Checked, Hopeless, AttemptOk, MarkedAndAssumed,
         AllMarkable, AllAssumable, EndsSo, AfterMarking, AfterAssuming;
    var cache := binder.cache;
    ghost var p3, info, nodes, m0, s0 := unit.place, unit.info, cache.nodes, cache.markers, cache.states;
    SoundIsHarmless(p3, info, nodes, cache.request);
    ghost var marking, rolledBack, did;
    marking, rolledBack, did := MarkVictimsAndAssumeTasks(binder, unit, env.volumesOk, env.storesOk, env.rollbackOk);
    p4 := unit.place;
    SunkKeys(p3, p4);
    IgnoredWhenSunk(p3, p4);
    ReadyToFinish(unit, p2, p3, p4, info, binder.queued, m0, cache.markers, s0, cache.states, marking);
    trace := Full(p3, did, cache.markers, cache.states);
    r := FinishAttempt(binder, unit, env, m0, s0, marking);
    FullTrace(unit, cache, binder.queued, env.forgetOk, trace, nodes, m0, s0);
  }

  /** The six stages, one after the other. */
  method RunStages(
    binder: Binder, pods: set<Uid>, isPodGroup: bool, minMember: int, everScheduled: bool, env: Env)
    returns (r: Outcome, unit: BindingUnitInfo, ghost trace: Trace, ghost way: Way)
    requires binder.QueueOk() && binder.cache.Valid() && pods <= binder.queued.Keys
    modifies binder`queued, binder.cache
    ensures binder.QueueOk() && binder.cache.Valid() && binder.queued.Keys == old(binder.queued).Keys
    ensures fresh(unit) && unit.Valid() && unit.Complete() && unit.place.Keys == pods
    ensures unit.isPodGroup == isPodGroup && unit.minMember == minMember && unit.everScheduled == everScheduled
    ensures AttemptOk(r, unit, unit.place, unit.info, binder.queued,
                      old(binder.cache.markers), binder.cache.markers,
                      old(binder.cache.states), binder.cache.states, env)
    ensures TraceOk(trace, unit.info, unit.failedTasks, old(binder.cache.nodes), binder.cache.request, binder.queued,
                    env.forgetOk, old(binder.cache.markers), binder.cache.markers,
                    old(binder.cache.states), binder.cache.states)
    ensures Follows(r, unit, way, unit.info,
                    Start(old(binder.queued), old(binder.cache.states), old(binder.cache.markers),
                          old(binder.cache.nodes), binder.cache.request), env)
  {
    hide TraceOk, EffectsOk, Released, Kept, Consistent, NodesAgree, Marked, Clean, CacheOutcome, Accounts, At, Live,
         Gained, NewcomersAt, Settled, ReadyHarmless, Initialized, Exclusive, AfterPreemption, Sunk, SinceStart,
         AdmissionSound, Admitted, Checked, Hopeless, AttemptOk, MarkedAndAssumed, Sorted, Decision, Topology, Generous,
         Grounded, AllMarkable, AllAssumable, Follows, SortedSo, CheckedSo, GaveUp, EndsSo, AfterMarking, AfterAssuming,
         Expired;
    var cache := binder.cache;
    trace := Early;
    ghost var q0, m0, s0 := binder.queued, cache.markers, cache.states;
    ghost var nodes, req := cache.nodes, cache.request;
    ghost var at := Start(q0, s0, m0, nodes, req);
    unit := binder.InitializeUnit(pods, isPodGroup, minMember, everScheduled, env.arrivals, env.lookup);
    ghost var p0, info := unit.place, unit.info;
    way := Way(p0, unit.allVictims, p0);
    SortedCourse(unit, at, env, p0);
    InitializedExclusive(unit, p0, info, q0, m0);
    InitializedClean(p0, info, q0, m0);
    var failed := unit.IsUnitFailed();
    if failed {
      r := RejectEarly(binder, unit, env);
      EarlyTrace(unit, cache, binder.queued, env.forgetOk, nodes, m0, s0);
      EarlyCourse(r, unit, way, p0, info, at, env);
      return;
    }
    failed := binder.CheckCrossNodePreemptionForUnit(unit, env.isPreemptor, env.complete, env.timedOut, env.preemptOk);
    ghost var p1 := unit.place;
    IgnoredAfterPreemption(p0, p1);
    failed := unit.IsUnitFailed();
    if failed {
      r := RejectEarly(binder, unit, env);
      EarlyTrace(unit, cache, binder.queued, env.forgetOk, nodes, m0, s0);
      EarlyCourse(r, unit, way, p1, info, at, env);
      return;
    }
    failed := binder.CheckCrossNodeTopologyForUnit(unit, env.nodeKnown, env.topologyOk);
    ghost var p2 := unit.place;
    NothingAdmittedYet(p0, p1, p2, info, q0, m0);
    IgnoredWhenSunk(p1, p2);
    failed := unit.IsUnitFailed();
    if failed {
      r := RejectEarly(binder, unit, env);
      EarlyTrace(unit, cache, binder.queued, env.forgetOk, nodes, m0, s0);
      EarlyCourse(r, unit, way, p2, info, at, env);
      return;
    }
    var cancelled := CheckSameNodeConflictsForUnit(unit, cache, env.conflictOk, false);
    ghost var p3 := unit.place;
    SinceKeys(p2, p3);
    way := way.(p3 := p3);
    AnyWay(way, p0, info, at, env);
    CheckedSame(unit, p2, p3, info, at, env);
    failed := unit.IsUnitFailed();
    if failed {
      r := RejectEarly(binder, unit, env);
      EarlyTrace(unit, cache, binder.queued, env.forgetOk, nodes, m0, s0);
      CheckedCourse(r, unit, way, p3, info, at, env);
      return;
    }
    StagesChecked(p0, p2, p3, info, q0, m0);
    ghost var p4;
    r, trace, p4 := BindChecked(binder, unit, env, p2);
    CheckedCourse(r, unit, way, p4, info, at, env);
  }

  lemma AnyWay(way: Way, p: Placement, info: Infos, at: Start, env: Env)
    requires SortedSo(way.(p3 := p), info, at, env)
    ensures SortedSo(way, info, at, env)
  {
  }

  lemma CheckedSame(unit: BindingUnitInfo, p2: Placement, p3: Placement, info: Infos, at: Start, env: Env)
    requires SinceStart(p2, p3) && (Hopeless(unit, p3) || At(p3, New) == {})
    requires forall n :: AdmissionSound(p3, info, at.nodes, at.req, n)
    requires Generous(p2, p3, info, at.nodes, at.req, env.conflictOk)
    requires Grounded(p2, p3, info, at.nodes, at.req, env.conflictOk)
    requires forall u | u in p3 && p2[u] == New :: p3[u] == Ready || p3[u] == Waiting ==> env.conflictOk(u)
    ensures CheckedSo(unit, p2, p3, info, at, env)
    ensures forall u :: u in p3 ==> (p3[u] == Ignored <==> p2[u] == Ignored)
  {
    hide AdmissionSound, Generous, Grounded, Hopeless;
  }

  lemma IgnoredAfterPreemption(p0: Placement, p: Placement)
    requires AfterPreemption(p0, p)
    ensures p.Keys == p0.Keys && forall u :: u in p ==> (p[u] == Ignored <==> p0[u] == Ignored)
  {
    forall u | u in p
      ensures p[u] == Ignored <==> p0[u] == Ignored
    {
    }
  }

  lemma IgnoredWhenSunk(p0: Placement, p: Placement)
    requires Sunk(p0, p)
    ensures p.Keys == p0.Keys && forall u :: u in p ==> (p[u] == Ignored <==> p0[u] == Ignored)
  {
  }

  /**
   One binding attempt of a unit, with every verdict, every order of visiting tasks and every
   interleaving of the node workers. Whatever is bound or put back has passed every check,
   whatever is rejected has a reason, and if everything goes well nothing is.
  */
  method CheckAndBindUnit(
    binder: Binder, pods: set<Uid>, isPodGroup: bool, minMember: int, everScheduled: bool, env: Env)
    returns (r: Outcome, unit: BindingUnitInfo, ghost trace: Trace, ghost way: Way)
    requires binder.QueueOk() && binder.cache.Valid() && pods <= binder.queued.Keys
    modifies binder`queued, binder.cache
    ensures binder.QueueOk() && binder.cache.Valid() && binder.queued.Keys == old(binder.queued).Keys
    ensures fresh(unit) && unit.Valid() && unit.Complete() && unit.place.Keys == unit.info.Keys == pods
    ensures unit.isPodGroup == isPodGroup && unit.minMember == minMember && unit.everScheduled == everScheduled
    ensures AttemptOk(r, unit, unit.place, unit.info, binder.queued,
                      old(binder.cache.markers), binder.cache.markers,
                      old(binder.cache.states), binder.cache.states, env)
    ensures TraceOk(trace, unit.info, unit.failedTasks, old(binder.cache.nodes), binder.cache.request, binder.queued,
                    env.forgetOk, old(binder.cache.markers), binder.cache.markers,
                    old(binder.cache.states), binder.cache.states)
    ensures
      var at := Start(old(binder.queued), old(binder.cache.states), old(binder.cache.markers),
                      old(binder.cache.nodes), binder.cache.request);
      && Follows(r, unit, way, unit.info, at, env)
      && (forall u :: u in r.attempted || u in r.requeued ==> Passed(u, unit.info, at, env))
      && (forall u | u in r.requeued && u in at.queued && u in unit.info && !at.queued[u].inHandling ::
            unit.info[u].task.victims != {} ==> env.deleteOk(u))
      && (forall u :: u in r.rejected ==> Explained(unit, way, unit.info, at, env, u))
      && (Smooth(pods, isPodGroup, minMember, everScheduled, env, at.queued, at.states, at.markers, at.nodes, at.req)
          ==> r.rejected == {})
  {
    hide *;
    ghost var at := Start(binder.queued, binder.cache.states, binder.cache.markers, binder.cache.nodes, binder.cache.request);
    r, unit, trace, way := RunStages(binder, pods, isPodGroup, minMember, everScheduled, env);
    SamePods(unit);
    forall u | u in r.attempted || u in r.requeued
      ensures Passed(u, unit.info, at, env)
      ensures u in at.queued && u in unit.info && !at.queued[u].inHandling && unit.info[u].task.victims != {} ==>
        env.deleteOk(u)
    {
      BoundHasPassed(r, unit, way, unit.info, at, env, u);
      PassedKnown(u, unit.info, at, env);
    }
    forall u | u in r.rejected
      ensures Explained(unit, way, unit.info, at, env, u)
    {
      RejectedHasReason(r, unit, way, unit.info, at, env, u);
    }
    if Smooth(pods, isPodGroup, minMember, everScheduled, env, at.queued, at.states, at.markers, at.nodes, at.req) {
      SmoothRejectsNobody(r, unit, way, unit.info, at, env);
    }
  }

  lemma PassedKnown(u: Uid, info: Infos, at: Start, env: Env)
    requires Passed(u, info, at, env)
    ensures u in at.queued && u in info
  {
  }

  lemma SamePods(unit: BindingUnitInfo)
    requires unit.Valid()
    ensures unit.place.Keys == unit.info.Keys
  {
    FailedListIs(unit);
  }

  lemma SinceKeys(p: Placement, p': Placement)
    requires SinceStart(p, p')
    ensures p'.Keys == p.Keys
  {
  }

  lemma SunkKeys(p: Placement, p': Placement)
    requires Sunk(p, p')
    ensures p'.Keys == p.Keys
  {
  }
}
