/**
 The course of an attempt, from the input to the outcome: where every stage leaves the tasks,
 and what follows for a single pod. A pod that is bound or put back has passed every check,
 and a pod that is rejected failed one, or its unit is too small without those that did.
*/
module Course {

  import opened BinderTypes
  import opened Placements
  import opened UnitLists
  import opened BindingUnit
  import opened Caches
  import opened SameNode
  import opened Workflow
  import opened Marking
  import opened Assuming
  import opened Attempt
  import opened Verdicts

  /** What an attempt finds. */
  datatype Start = Start(
    queued: Queued, states: States, markers: Marks, nodes: map<NodeName, NodeInfo>, req: Requests)

  /** What depends on the order of visiting: where the pods were sorted, and where the same-node check left them. */
  datatype Way = Way(p0: Placement, victims: set<Uid>, p3: Placement)

  /** Every pod is where it belongs, given the victims that were taken when its turn came. */
  ghost predicate SortedSo(way: Way, info: Infos, at: Start, env: Env) {
    && way.p0.Keys == info.Keys
    && Sorted(way.p0, info, way.victims, at.queued, at.states, at.markers, env.arrivals, env.lookup)
    && TakenByNew(way.p0, info, way.victims)
    && (forall u :: u in way.p0 && way.p0[u] != New ==> info[u].task.victims == {})
    && (forall u :: u in way.p0 ==> (way.p0[u] == Assumed <==> info[u].assumed))
  }

  ghost function Decide(p0: Placement, info: Infos, env: Env): Placement {
    Decision(p0, info, env.isPreemptor, env.complete, env.timedOut, env.preemptOk)
  }

  /** Where the tasks are when the same-node check begins. */
  ghost function BeforeSameNode(p0: Placement, info: Infos, env: Env): Placement {
    Topology(Decide(p0, info, env), env.nodeKnown, env.topologyOk)
  }

  /** What the same-node check says; it leaves a new task only in a unit that failed. */
  ghost predicate CheckedSo(
    unit: BindingUnitInfo, p2: Placement, p3: Placement, info: Infos, at: Start, env: Env)
  {
    && SinceStart(p2, p3) && (Hopeless(unit, p3) || At(p3, New) == {})
    && (forall n :: AdmissionSound(p3, info, at.nodes, at.req, n))
    && Generous(p2, p3, info, at.nodes, at.req, env.conflictOk)
    && Grounded(p2, p3, info, at.nodes, at.req, env.conflictOk)
    && (forall u | u in p3 && p2[u] == New :: p3[u] == Ready || p3[u] == Waiting ==> env.conflictOk(u))
  }

  /** Where the tasks are when their victims are marked and they are assumed. */
  ghost function BeforeBinding(unit: BindingUnitInfo, p3: Placement, info: Infos, at: Start, env: Env): Placement {
    AfterAssuming(unit, AfterMarking(p3, info, at.states), info, at.states, env.volumesOk, env.storesOk)
  }

  /** The unit has failed before the same-node check. */
  ghost predicate FailsEarly(unit: BindingUnitInfo, p0: Placement, info: Infos, env: Env) {
    || Hopeless(unit, p0)
    || Hopeless(unit, Decide(p0, info, env))
    || Hopeless(unit, BeforeSameNode(p0, info, env))
  }

  /** The outcome follows from the verdicts, stage by stage. */
  ghost predicate Follows(r: Outcome, unit: BindingUnitInfo, way: Way, info: Infos, at: Start, env: Env) {
    && SortedSo(way, info, at, env)
    && (if FailsEarly(unit, way.p0, info, env) then GaveUp(r, way.p0)
        else
          && CheckedSo(unit, BeforeSameNode(way.p0, info, env), way.p3, info, at, env)
          && (if Hopeless(unit, way.p3) then GaveUp(r, way.p0)
              else EndsSo(r, unit, way.p0, BeforeBinding(unit, way.p3, info, at, env), info, env)))
  }

  ghost predicate EndsSo(
    r: Outcome, unit: BindingUnitInfo, p0: Placement, p4: Placement, info: Infos, env: Env)
  {
    if Hopeless(unit, p4) then GaveUp(r, p0) else Concludes(r, unit, p4, info, env.deleteOk, env.lockOk, env.bindOk)
  }

  // ---- what is bound or put back has passed every check

  ghost predicate RanOut(u: Uid, env: Env) {
    env.isPreemptor(u) && !env.complete(u) && env.timedOut(u)
  }

  /** Some task of the unit has victims. */
  ghost predicate UnitPreempts(info: Infos) {
    exists u :: u in info && info[u].task.victims != {}
  }

  /** What is known of a pod that is bound or put back, before its victims are deleted and it is bound. */
  ghost predicate Passed(u: Uid, info: Infos, at: Start, env: Env) {
    && u in at.queued && u in info
    && (if at.queued[u].inHandling then !RanOut(u, env)
        else
          && !Skipped(u, env.arrivals(u), at.states)
          && CanStart(env.arrivals(u), env.lookup, at.markers, {})
          && info[u].task == Task(u, env.arrivals(u).node, Existing(env.arrivals(u), env.lookup))
          && (UnitPreempts(info) ==> env.preemptOk(u))
          && env.nodeKnown(u) && env.topologyOk(u) && env.conflictOk(u)
          && Markable(at.states, info[u].task)
          && env.volumesOk(u) && env.storesOk(u) && u !in at.states)
  }

  lemma SortedPod(way: Way, info: Infos, at: Start, env: Env, u: Uid)
    requires SortedSo(way, info, at, env) && u in way.p0
    ensures u in at.queued && u in info
    ensures way.p0[u] == Assumed <==> at.queued[u].inHandling
    ensures way.p0[u] == New ==>
      && !info[u].assumed && !Skipped(u, env.arrivals(u), at.states)
      && CanStart(env.arrivals(u), env.lookup, at.markers, {})
      && info[u].task == Task(u, env.arrivals(u).node, Existing(env.arrivals(u), env.lookup))
    ensures way.p0[u] == Assumed || way.p0[u] == New || way.p0[u] == Failed || way.p0[u] == Ignored
    ensures way.p0[u] == Ignored <==> !at.queued[u].inHandling && Skipped(u, env.arrivals(u), at.states)
  {
    hide CanStart, Existing, Skipped;
  }

  lemma PreemptsIs(way: Way, info: Infos, at: Start, env: Env)
    requires SortedSo(way, info, at, env)
    ensures Preempts(way.p0, info) <==> UnitPreempts(info)
  {
    hide Sorted;
    if u :| u in info && info[u].task.victims != {} {
      assert u in At(way.p0, New);
    }
  }

  /** A task that is alive after the checks was assumed before, or is new and passed. */
  lemma PassedChecks(
    unit: BindingUnitInfo, way: Way, info: Infos, at: Start, env: Env, u: Uid)
    requires SortedSo(way, info, at, env) && u in way.p3
    requires CheckedSo(unit, BeforeSameNode(way.p0, info, env), way.p3, info, at, env)
    requires way.p3[u] == Ready || way.p3[u] == Waiting
    ensures u in way.p0 && (way.p0[u] == Assumed || way.p0[u] == New)
    ensures way.p0[u] == Assumed ==> !RanOut(u, env)
    ensures way.p0[u] == New ==>
      && (UnitPreempts(info) ==> env.preemptOk(u)) && env.nodeKnown(u) && env.topologyOk(u) && env.conflictOk(u)
    ensures way.p0[u] == New && way.p3[u] == Ready ==> info[u].task.victims == {}
  {
    hide Sorted, Grounded, Generous, AdmissionSound, Admitted;
    PreemptsIs(way, info, at, env);
    SortedPod(way, info, at, env, u);
    if way.p0[u] == New && way.p3[u] == Ready {
      ReadyPreemptsNobody(way.p3, info, at.nodes, at.req, u);
    }
  }

  lemma ReadyPreemptsNobody(p: Placement, info: Infos, nodes: map<NodeName, NodeInfo>, req: Requests, u: Uid)
    requires u in p && u in info && p[u] == Ready && !info[u].assumed
    requires AdmissionSound(p, info, nodes, req, info[u].task.node)
    ensures info[u].task.victims == {}
  {
    var a := Admitted(p, info, info[u].task.node);
    assert u in a;
    assert info[u].task.victims <= Preempted(a, info);
  }

  /** A task that is alive after marking and assuming was so before, and if new could be marked and assumed. */
  lemma PassedAssuming(unit: BindingUnitInfo, p3: Placement, info: Infos, at: Start, env: Env, u: Uid)
    requires u in p3 && u in info
    requires
      var p4 := BeforeBinding(unit, p3, info, at, env);
      u in p4 && (p4[u] == Ready || p4[u] == Waiting) && !Hopeless(unit, p4)
    ensures p3[u] == Ready || p3[u] == Waiting
    ensures !info[u].assumed && p3[u] == Waiting ==> Markable(at.states, info[u].task)
    ensures !info[u].assumed ==> env.volumesOk(u) && env.storesOk(u) && u !in at.states
  {
    hide Markable, Hopeless;
    var p := AfterMarking(p3, info, at.states);
    var waiting := NewcomersAt(p3, info, Waiting);
    if u in waiting {
      assert !IsFailedNode(at.states, info, waiting, info[u].task.node);
    }
    assert p[u] == Ready ==> p3[u] == Ready;
    assert !info[u].assumed ==> u in NewcomersAt(p, info, Ready) + NewcomersAt(p, info, Waiting);
  }

  /** What the last stage attempts or puts back was alive before it. */
  lemma AliveBefore(
    r: Outcome, unit: BindingUnitInfo, p4: Placement, info: Infos, env: Env, u: Uid)
    requires Concludes(r, unit, p4, info, env.deleteOk, env.lockOk, env.bindOk)
    requires u in r.attempted || u in r.requeued
    ensures u in p4 && (p4[u] == Ready || p4[u] == Waiting)
    ensures u in NewcomersAt(p4, info, Waiting) && u in info && info[u].task.victims != {} ==> env.deleteOk(u)
  {
    hide Hopeless;
    var p := AfterDeletions(p4, info, env.deleteOk);
    assert u in p && (p[u] == Ready || p[u] == Waiting);
  }

  /** Whatever is bound or put back passed every check. */
  lemma BoundHasPassed(
    r: Outcome, unit: BindingUnitInfo, way: Way, info: Infos, at: Start, env: Env, u: Uid)
    requires Follows(r, unit, way, info, at, env) && (u in r.attempted || u in r.requeued)
    ensures Passed(u, info, at, env)
    ensures !at.queued[u].inHandling && info[u].task.victims != {} ==> env.deleteOk(u)
  {
    hide SortedSo, CheckedSo, FailsEarly, Concludes, Hopeless, CanStart, Existing, Skipped, BeforeBinding, BeforeSameNode,
         Markable, NewcomersAt;
    var p3 := way.p3;
    var p4 := BeforeBinding(unit, p3, info, at, env);
    AliveBefore(r, unit, p4, info, env, u);
    BindingKeys(unit, way, info, at, env);
    PassedAssuming(unit, p3, info, at, env, u);
    PassedChecks(unit, way, info, at, env, u);
    SortedPod(way, info, at, env, u);
    if !at.queued[u].inHandling {
      NoVictims(at.states, info[u].task);
      StillWaits(unit, p3, info, at, env, u);
    }
  }

  lemma BindingKeys(unit: BindingUnitInfo, way: Way, info: Infos, at: Start, env: Env)
    requires SortedSo(way, info, at, env)
    requires CheckedSo(unit, BeforeSameNode(way.p0, info, env), way.p3, info, at, env)
    ensures way.p3.Keys == info.Keys && BeforeBinding(unit, way.p3, info, at, env).Keys == info.Keys
  {
    hide Sorted, Grounded, Generous, AdmissionSound, Hopeless;
  }

  lemma NoVictims(states: States, t: Task)
    ensures t.victims == {} ==> Markable(states, t)
  {
  }

  /** A preemptor that is alive before binding waits there. */
  lemma StillWaits(unit: BindingUnitInfo, p3: Placement, info: Infos, at: Start, env: Env, u: Uid)
    requires u in p3 && u in info && !info[u].assumed
    ensures
      var p4 := BeforeBinding(unit, p3, info, at, env);
      u in p4 && (p4[u] == Ready || p4[u] == Waiting) && p3[u] == Waiting ==> u in NewcomersAt(p4, info, Waiting)
  {
    hide IsFailedNode, Hopeless, AllAssumable;
  }

  // ---- what is rejected has a reason

  ghost predicate IsIgnored(u: Uid, at: Start, env: Env) {
    u in at.queued && !at.queued[u].inHandling && Skipped(u, env.arrivals(u), at.states)
  }

  /** A new pod cannot start, by itself or because another task of the unit wants one of its victims. */
  ghost predicate CannotStart(u: Uid, info: Infos, at: Start, env: Env) {
    || !CanStart(env.arrivals(u), env.lookup, at.markers, {})
    || exists v, w :: w in info && w != u && v in info[w].task.victims && v in Existing(env.arrivals(u), env.lookup)
  }

  /** A new task fails one of the checks across nodes. */
  ghost predicate FailsAcross(u: Uid, info: Infos, env: Env) {
    (UnitPreempts(info) && !env.preemptOk(u)) || !env.nodeKnown(u) || !env.topologyOk(u)
  }

  /** A task that was admitted to its node. */
  ghost predicate IsAdmitted(w: Uid, p3: Placement, info: Infos) {
    w in p3 && w in info && !info[w].assumed && (p3[w] == Ready || p3[w] == Waiting)
  }

  /** The node of a task, or the whole unit, lost its new tasks to a failed mark, assume or deletion. */
  ghost predicate FallsWith(u: Uid, p3: Placement, info: Infos, at: Start, env: Env)
    requires u in info
  {
    || (exists w :: IsAdmitted(w, p3, info) && info[w].task.node == info[u].task.node &&
          !Markable(at.states, info[w].task))
    || (exists w :: IsAdmitted(w, p3, info) && !(env.volumesOk(w) && env.storesOk(w) && w !in at.states))
    || (exists w :: IsAdmitted(w, p3, info) && info[w].task.node == info[u].task.node &&
          info[w].task.victims != {} && !env.deleteOk(w))
  }

  /** The reason of one pod to fail. */
  ghost predicate AtFault(u: Uid, way: Way, info: Infos, at: Start, env: Env) {
    && u in info && u in at.queued
    && (|| !env.bindOk(u)
        || (if at.queued[u].inHandling then RanOut(u, env)
            else
              || CannotStart(u, info, at, env)
              || FailsAcross(u, info, env)
              || Blamed(BeforeSameNode(way.p0, info, env), way.p3, info, at.nodes, at.req, env.conflictOk,
                        info[u].task.node, u)
              || FallsWith(u, way.p3, info, at, env)))
  }

  /** Those that are neither ignored nor at fault. */
  ghost function Faultless(way: Way, info: Infos, at: Start, env: Env): set<Uid> {
    set u | u in info && !IsIgnored(u, at, env) && !AtFault(u, way, info, at, env)
  }

  /** Without those at fault the unit is too small; a single pod's unit fails with any. */
  ghost predicate TooFew(unit: BindingUnitInfo, way: Way, info: Infos, at: Start, env: Env) {
    if unit.isPodGroup then !unit.everScheduled && |Faultless(way, info, at, env)| < unit.minMember
    else exists u :: AtFault(u, way, info, at, env)
  }

  /** In this placement whoever failed is at fault, and the ignored pods are those to be ignored. */
  ghost predicate FaultsOnly(p: Placement, way: Way, info: Infos, at: Start, env: Env) {
    && p.Keys == info.Keys
    && (forall u :: u in p && p[u] == Failed ==> AtFault(u, way, info, at, env))
    && (forall u :: u in p ==> (p[u] == Ignored <==> IsIgnored(u, at, env)))
  }

  lemma HopelessIsTooFew(unit: BindingUnitInfo, p: Placement, way: Way, info: Infos, at: Start, env: Env)
    requires FaultsOnly(p, way, info, at, env) && Hopeless(unit, p)
    ensures TooFew(unit, way, info, at, env)
  {
    hide AtFault, IsIgnored, Live;
    if unit.isPodGroup {
      LiveIs(p);
      assert Faultless(way, info, at, env) <= Live(p);
      Subset(Faultless(way, info, at, env), Live(p));
    } else {
      var u :| u in At(p, Failed);
      assert AtFault(u, way, info, at, env);
    }
  }

  lemma SortedFaults(way: Way, info: Infos, at: Start, env: Env)
    requires SortedSo(way, info, at, env)
    ensures FaultsOnly(way.p0, way, info, at, env)
  {
    forall u | u in way.p0
      ensures way.p0[u] == Failed ==> AtFault(u, way, info, at, env)
      ensures way.p0[u] == Ignored <==> IsIgnored(u, at, env)
    {
      SortedPod(way, info, at, env, u);
      if way.p0[u] == Failed {
        FailedStart(way, info, at, env, u);
        hide CannotStart, FailsAcross, FallsWith, Blamed;
      }
    }
  }

  lemma FailedStart(way: Way, info: Infos, at: Start, env: Env, u: Uid)
    requires SortedSo(way, info, at, env) && u in way.p0 && way.p0[u] == Failed
    ensures CannotStart(u, info, at, env)
  {
    if CanStart(env.arrivals(u), env.lookup, at.markers, {}) {
      var v := Outbid(way.p0, info, way.victims, at.queued, at.states, at.markers, env, u);
      hide Sorted, CanStart, Existing;
      var w :| w in At(way.p0, New) && w in info && v in info[w].task.victims;
      assert w != u;
    }
  }

  lemma CheckFault(way: Way, info: Infos, at: Start, env: Env, u: Uid)
    requires SortedSo(way, info, at, env) && u in way.p0
    requires way.p0[u] == Failed ==> AtFault(u, way, info, at, env)
    ensures
      var p1, p2 := Decide(way.p0, info, env), BeforeSameNode(way.p0, info, env);
      && p1.Keys == p2.Keys == way.p0.Keys
      && (p1[u] == Failed || p2[u] == Failed ==> AtFault(u, way, info, at, env))
      && (p1[u] == Ignored <==> way.p0[u] == Ignored) && (p2[u] == Ignored <==> way.p0[u] == Ignored)
  {
    SortedPod(way, info, at, env, u);
    PreemptsIs(way, info, at, env);
    hide SortedSo, CannotStart, FallsWith, Blamed, UnitPreempts, Preempts, InProgress;
  }

  lemma CheckFaults(way: Way, info: Infos, at: Start, env: Env)
    requires SortedSo(way, info, at, env)
    ensures FaultsOnly(Decide(way.p0, info, env), way, info, at, env)
    ensures FaultsOnly(BeforeSameNode(way.p0, info, env), way, info, at, env)
  {
    hide AtFault, IsIgnored, Decide, BeforeSameNode, Sorted;
    SortedFaults(way, info, at, env);
    var p1, p2 := Decide(way.p0, info, env), BeforeSameNode(way.p0, info, env);
    DecideKeys(way.p0, info, env);
    forall u | u in way.p0
      ensures p1[u] == Failed || p2[u] == Failed ==> AtFault(u, way, info, at, env)
      ensures p1[u] == Ignored <==> IsIgnored(u, at, env)
      ensures p2[u] == Ignored <==> IsIgnored(u, at, env)
    {
      CheckFault(way, info, at, env, u);
    }
  }

  lemma DecideKeys(p0: Placement, info: Infos, env: Env)
    ensures Decide(p0, info, env).Keys == BeforeSameNode(p0, info, env).Keys == p0.Keys
  {
  }

  lemma SameNodeFaults(unit: BindingUnitInfo, way: Way, info: Infos, at: Start, env: Env)
    requires SortedSo(way, info, at, env)
    requires CheckedSo(unit, BeforeSameNode(way.p0, info, env), way.p3, info, at, env)
    ensures FaultsOnly(way.p3, way, info, at, env)
  {
    hide SortedSo, AtFault, IsIgnored, BeforeSameNode, AdmissionSound, Generous, Grounded, Hopeless;
    CheckFaults(way, info, at, env);
    var p2 := BeforeSameNode(way.p0, info, env);
    forall u | u in way.p3 && way.p3[u] == Failed
      ensures AtFault(u, way, info, at, env)
    {
      if p2[u] != Failed {
        NewBefore(way, info, at, env, u);
        BlamedIsFault(way, info, at, env, u);
      }
    }
  }

  lemma BlamedIsFault(way: Way, info: Infos, at: Start, env: Env, u: Uid)
    requires
      var p2 := BeforeSameNode(way.p0, info, env);
      && Grounded(p2, way.p3, info, at.nodes, at.req, env.conflictOk)
      && u in p2 && p2[u] == New && way.p3[u] == Failed && u in at.queued && !at.queued[u].inHandling
    ensures AtFault(u, way, info, at, env)
  {
    hide CannotStart, FailsAcross, FallsWith, Blamed, BeforeSameNode;
  }

  lemma NewBefore(way: Way, info: Infos, at: Start, env: Env, u: Uid)
    requires SortedSo(way, info, at, env) && u in BeforeSameNode(way.p0, info, env)
    requires BeforeSameNode(way.p0, info, env)[u] == New
    ensures u in way.p0 && way.p0[u] == New && u in at.queued && !at.queued[u].inHandling
  {
    hide Sorted, Preempts, InProgress;
    SortedPod(way, info, at, env, u);
  }

  /** A new task that was admitted is at fault when it falls with others. */
  lemma FallingIsFault(unit: BindingUnitInfo, way: Way, info: Infos, at: Start, env: Env, u: Uid)
    requires SortedSo(way, info, at, env) && IsAdmitted(u, way.p3, info)
    requires CheckedSo(unit, BeforeSameNode(way.p0, info, env), way.p3, info, at, env)
    requires FallsWith(u, way.p3, info, at, env)
    ensures AtFault(u, way, info, at, env)
  {
    hide Sorted, FallsWith, Blamed, CannotStart, FailsAcross, AdmissionSound, Generous, Grounded;
    PassedChecks(unit, way, info, at, env, u);
    SortedPod(way, info, at, env, u);
  }

  lemma AssumeFaults(unit: BindingUnitInfo, way: Way, info: Infos, at: Start, env: Env)
    requires SortedSo(way, info, at, env)
    requires CheckedSo(unit, BeforeSameNode(way.p0, info, env), way.p3, info, at, env)
    ensures FaultsOnly(BeforeBinding(unit, way.p3, info, at, env), way, info, at, env)
  {
    hide SortedSo, CheckedSo, AtFault, IsIgnored;
    SameNodeFaults(unit, way, info, at, env);
    var p3 := way.p3;
    var p4 := BeforeBinding(unit, p3, info, at, env);
    forall u | u in p3
      ensures p4[u] == Failed ==> AtFault(u, way, info, at, env)
      ensures p4[u] == Ignored <==> p3[u] == Ignored
    {
      AssumeFault(unit, p3, info, at, env, u);
      if p4[u] == Failed && p3[u] != Failed {
        FallingIsFault(unit, way, info, at, env, u);
      }
    }
  }

  lemma AssumeFault(unit: BindingUnitInfo, p3: Placement, info: Infos, at: Start, env: Env, u: Uid)
    requires u in p3 && p3.Keys == info.Keys
    ensures
      var p4 := BeforeBinding(unit, p3, info, at, env);
      && p4.Keys == p3.Keys && (p4[u] == Ignored <==> p3[u] == Ignored)
      && (p4[u] == Failed && p3[u] != Failed ==> IsAdmitted(u, p3, info) && FallsWith(u, p3, info, at, env))
  {
    hide Markable, Hopeless;
    var waiting := NewcomersAt(p3, info, Waiting);
    var p := AfterMarking(p3, info, at.states);
    if u in waiting && IsFailedNode(at.states, info, waiting, info[u].task.node) {
      var w :| w in waiting && w in info && info[w].task.node == info[u].task.node && !Markable(at.states, info[w].task);
      assert IsAdmitted(w, p3, info);
    } else if !AllAssumable(p, info, at.states, env.volumesOk, env.storesOk) {
      var w :| w in NewcomersAt(p, info, Ready) + NewcomersAt(p, info, Waiting) &&
        !(env.volumesOk(w) && env.storesOk(w) && w !in at.states);
      assert IsAdmitted(w, p3, info);
    }
  }

  lemma DeleteFaults(unit: BindingUnitInfo, way: Way, info: Infos, at: Start, env: Env)
    requires SortedSo(way, info, at, env)
    requires CheckedSo(unit, BeforeSameNode(way.p0, info, env), way.p3, info, at, env)
    ensures
      var p4 := BeforeBinding(unit, way.p3, info, at, env);
      FaultsOnly(AfterDeletions(p4, info, env.deleteOk), way, info, at, env)
  {
    hide SortedSo, CheckedSo, AtFault, IsIgnored, BeforeBinding;
    AssumeFaults(unit, way, info, at, env);
    BindingKeys(unit, way, info, at, env);
    var p4 := BeforeBinding(unit, way.p3, info, at, env);
    var p := AfterDeletions(p4, info, env.deleteOk);
    forall u | u in p4
      ensures p[u] == Failed ==> AtFault(u, way, info, at, env)
    {
      if p[u] == Failed && p4[u] != Failed {
        DeleteFault(unit, way.p3, p4, info, at, env, u);
        FallingIsFault(unit, way, info, at, env, u);
      }
    }
  }

  lemma DeleteFault(
    unit: BindingUnitInfo, p3: Placement, p4: Placement, info: Infos, at: Start, env: Env, u: Uid)
    requires u in p4 && p3.Keys == info.Keys && p4 == BeforeBinding(unit, p3, info, at, env)
    requires u in On(NewcomersAt(p4, info, Waiting), info, UndeletedNodes(p4, info, env.deleteOk))
    ensures IsAdmitted(u, p3, info) && FallsWith(u, p3, info, at, env)
  {
    hide Markable, Hopeless, IsFailedNode, AllAssumable;
    var w :| w in NewcomersAt(p4, info, Waiting) && info[w].task.victims != {} && !env.deleteOk(w) &&
      info[w].task.node == info[u].task.node;
    assert IsAdmitted(w, p3, info);
  }

  /** Why a pod is rejected. */
  ghost predicate Explained(unit: BindingUnitInfo, way: Way, info: Infos, at: Start, env: Env, u: Uid) {
    && u in info && !IsIgnored(u, at, env)
    && (|| AtFault(u, way, info, at, env)
        || TooFew(unit, way, info, at, env)
        || (unit.isPodGroup && !env.lockOk))
  }

  lemma GivenUpExplained(
    r: Outcome, unit: BindingUnitInfo, p: Placement, way: Way, info: Infos, at: Start, env: Env, u: Uid)
    requires FaultsOnly(p, way, info, at, env) && u in r.rejected && r.rejected == p.Keys - At(p, Ignored)
    requires TooFew(unit, way, info, at, env) || (unit.isPodGroup && !env.lockOk)
    ensures Explained(unit, way, info, at, env, u)
  {
    hide AtFault, IsIgnored, TooFew;
  }

  lemma FailedExplained(
    r: Outcome, unit: BindingUnitInfo, p: Placement, way: Way, info: Infos, at: Start, env: Env, u: Uid)
    requires FaultsOnly(p, way, info, at, env) && u in At(p, Failed)
    ensures Explained(unit, way, info, at, env, u)
  {
    hide AtFault, IsIgnored, TooFew;
  }

  lemma BindFaults(p: Placement, way: Way, info: Infos, at: Start, env: Env, failing: set<Uid>)
    requires FaultsOnly(p, way, info, at, env) && failing <= At(p, Ready)
    requires forall u :: u in failing ==> !env.bindOk(u) && u in at.queued
    ensures FaultsOnly(Relocate(p, failing, Failed), way, info, at, env)
  {
    hide CannotStart, FailsAcross, FallsWith, Blamed, IsIgnored;
  }

  lemma ConclusionExplained(
    r: Outcome, unit: BindingUnitInfo, p: Placement, way: Way, info: Infos, at: Start, env: Env, u: Uid)
    requires FaultsOnly(p, way, info, at, env) && info.Keys <= at.queued.Keys && u in r.rejected
    requires BindsSo(r, unit, p, env.bindOk)
    ensures Explained(unit, way, info, at, env, u)
  {
    hide FaultsOnly, Hopeless, TooFew, Explained;
    var failing := r.attempted - r.bound;
    var after := Relocate(p, failing, Failed);
    FaultKeys(p, way, info, at, env);
    BindFaults(p, way, info, at, env, failing);
    if Hopeless(unit, after) {
      HopelessIsTooFew(unit, after, way, info, at, env);
      GivenUpExplained(r, unit, after, way, info, at, env, u);
    } else {
      FailedExplained(r, unit, after, way, info, at, env, u);
    }
  }

  lemma FaultKeys(p: Placement, way: Way, info: Infos, at: Start, env: Env)
    requires FaultsOnly(p, way, info, at, env)
    ensures p.Keys == info.Keys
  {
  }

  lemma QueuedAll(way: Way, info: Infos, at: Start, env: Env)
    requires SortedSo(way, info, at, env)
    ensures info.Keys <= at.queued.Keys
  {
    forall u | u in info
      ensures u in at.queued
    {
      SortedPod(way, info, at, env, u);
    }
  }

  /** Whatever is rejected has a reason. */
  lemma RejectedHasReason(
    r: Outcome, unit: BindingUnitInfo, way: Way, info: Infos, at: Start, env: Env, u: Uid)
    requires Follows(r, unit, way, info, at, env) && u in r.rejected
    ensures Explained(unit, way, info, at, env, u)
  {
    hide SortedSo, CheckedSo, Hopeless, TooFew, Explained, FaultsOnly, BindsSo, AfterDeletions, BeforeBinding, Decide,
         BeforeSameNode;
    var p0 := way.p0;
    QueuedAll(way, info, at, env);
    SortedFaults(way, info, at, env);
    CheckFaults(way, info, at, env);
    if FailsEarly(unit, p0, info, env) {
      EarlyTooFew(unit, way, info, at, env);
      GivenUpExplained(r, unit, p0, way, info, at, env, u);
      return;
    }
    SameNodeFaults(unit, way, info, at, env);
    if Hopeless(unit, way.p3) {
      HopelessIsTooFew(unit, way.p3, way, info, at, env);
      GivenUpExplained(r, unit, p0, way, info, at, env, u);
      return;
    }
    var p4 := BeforeBinding(unit, way.p3, info, at, env);
    AssumeFaults(unit, way, info, at, env);
    if Hopeless(unit, p4) {
      HopelessIsTooFew(unit, p4, way, info, at, env);
      GivenUpExplained(r, unit, p0, way, info, at, env, u);
      return;
    }
    DeleteFaults(unit, way, info, at, env);
    LastExplained(r, unit, AfterDeletions(p4, info, env.deleteOk), way, info, at, env, u);
  }

  lemma EarlyTooFew(unit: BindingUnitInfo, way: Way, info: Infos, at: Start, env: Env)
    requires FailsEarly(unit, way.p0, info, env) && FaultsOnly(way.p0, way, info, at, env)
    requires FaultsOnly(Decide(way.p0, info, env), way, info, at, env)
    requires FaultsOnly(BeforeSameNode(way.p0, info, env), way, info, at, env)
    ensures TooFew(unit, way, info, at, env)
  {
    hide FaultsOnly, Hopeless, TooFew, Decide, BeforeSameNode;
    if Hopeless(unit, way.p0) {
      HopelessIsTooFew(unit, way.p0, way, info, at, env);
    } else if Hopeless(unit, Decide(way.p0, info, env)) {
      HopelessIsTooFew(unit, Decide(way.p0, info, env), way, info, at, env);
    } else {
      HopelessIsTooFew(unit, BeforeSameNode(way.p0, info, env), way, info, at, env);
    }
  }

  lemma LastExplained(
    r: Outcome, unit: BindingUnitInfo, p: Placement, way: Way, info: Infos, at: Start, env: Env, u: Uid)
    requires FaultsOnly(p, way, info, at, env) && info.Keys <= at.queued.Keys && u in r.rejected
    requires if Hopeless(unit, p) then GaveUp(r, p)
      else if unit.isPodGroup && !unit.everScheduled && |At(p, Ready)| < unit.minMember
      then r == NoBinding().(requeued := At(p, Ready) + At(p, Waiting), rejected := At(p, Failed))
      else if unit.isPodGroup && !env.lockOk then GaveUp(r, p)
      else BindsSo(r, unit, p, env.bindOk)
    ensures Explained(unit, way, info, at, env, u)
  {
    hide FaultsOnly, Hopeless, TooFew, Explained, BindsSo;
    if Hopeless(unit, p) {
      HopelessIsTooFew(unit, p, way, info, at, env);
      GivenUpExplained(r, unit, p, way, info, at, env, u);
    } else if unit.isPodGroup && !unit.everScheduled && |At(p, Ready)| < unit.minMember {
      FailedExplained(r, unit, p, way, info, at, env, u);
    } else if unit.isPodGroup && !env.lockOk {
      GivenUpExplained(r, unit, p, way, info, at, env, u);
    } else {
      ConclusionExplained(r, unit, p, way, info, at, env, u);
    }
  }

  // ---- when everything goes well

  /** Nothing was admitted to a node before the same-node check. */
  lemma NoneAdmittedYet(way: Way, info: Infos, at: Start, env: Env, n: NodeName)
    requires SortedSo(way, info, at, env)
    ensures Admitted(BeforeSameNode(way.p0, info, env), info, n) == {}
  {
    hide Sorted, Preempts, InProgress;
    forall u | u in Admitted(BeforeSameNode(way.p0, info, env), info, n)
      ensures false
    {
      SortedPod(way, info, at, env, u);
    }
  }

  lemma TopologyPasses(unit: BindingUnitInfo, p: Placement, info: Infos, at: Start, env: Env)
    requires OnCourse(unit, p, info, env, at.states, at.nodes, at.req)
    ensures Topology(p, env.nodeKnown, env.topologyOk) == p
  {
    hide Roomy, Hopeless;
    assert forall u :: u in p && p[u] == New ==> u in At(p, New);
  }

  lemma ClearStays(unit: BindingUnitInfo, p3: Placement, info: Infos, at: Start, env: Env)
    requires Clear(unit, p3, info, env, at.states)
    ensures BeforeBinding(unit, p3, info, at, env) == p3
  {
    hide Markable, Hopeless;
    assert AfterMarking(p3, info, at.states) == p3;
  }

  lemma ClearRejectsNobody(r: Outcome, unit: BindingUnitInfo, p: Placement, info: Infos, env: Env, states: States)
    requires Clear(unit, p, info, env, states)
    requires Concludes(r, unit, p, info, env.deleteOk, env.lockOk, env.bindOk)
    ensures r.rejected == {}
  {
    hide Live, AllMarkable, AllAssumable;
    AllDeleted(p, AfterDeletions(p, info, env.deleteOk), info, env.deleteOk);
    hide AfterDeletions;
    if r.reachedBind {
      assert r.attempted - r.bound == {};
      assert Relocate(p, {}, Failed) == p;
    }
  }

  /** If everything an attempt meets goes well, nothing is rejected. */
  lemma SmoothRejectsNobody(r: Outcome, unit: BindingUnitInfo, way: Way, info: Infos, at: Start, env: Env)
    requires Follows(r, unit, way, info, at, env)
    requires Smooth(info.Keys, unit.isPodGroup, unit.minMember, unit.everScheduled, env, at.queued, at.states, at.markers,
                    at.nodes, at.req)
    ensures r.rejected == {}
  {
    hide Smooth, Sorted, OnCourse, Clear, Hopeless, Concludes, BeforeBinding, AdmissionSound, Grounded, Generous, Decision,
         Topology, TakenByNew;
    var p0 := way.p0;
    SetsOut(unit, p0, info, way.victims, env, at.queued, at.states, at.markers, at.nodes, at.req);
    var p1 := Decide(p0, info, env);
    PreemptionKeepsCourse(unit, p0, p1, info, env, at.states, at.nodes, at.req);
    TopologyPasses(unit, p1, info, at, env);
    OnCourseHopes(unit, p0, info, env, at);
    OnCourseHopes(unit, p1, info, env, at);
    forall n
      ensures Admitted(p1, info, n) == {}
    {
      NoneAdmittedYet(way, info, at, env, n);
    }
    AllAdmitted(unit, p1, way.p3, info, env, at.states, at.nodes, at.req);
    ClearHopes(unit, way.p3, info, env, at.states);
    ClearStays(unit, way.p3, info, at, env);
    ClearRejectsNobody(r, unit, way.p3, info, env, at.states);
  }

  lemma OnCourseHopes(unit: BindingUnitInfo, p: Placement, info: Infos, env: Env, at: Start)
    requires OnCourse(unit, p, info, env, at.states, at.nodes, at.req)
    ensures !Hopeless(unit, p)
  {
  }

  lemma ClearHopes(unit: BindingUnitInfo, p: Placement, info: Infos, env: Env, states: States)
    requires Clear(unit, p, info, env, states)
    ensures !Hopeless(unit, p)
  {
  }

  // ---- putting a course together

  lemma SortedCourse(unit: BindingUnitInfo, at: Start, env: Env, p3: Placement)
    requires unit.Valid() && Initialized(unit.place, unit.info, at.queued, at.markers)
    requires Sorted(unit.place, unit.info, unit.allVictims, at.queued, at.states, at.markers, env.arrivals, env.lookup)
    ensures SortedSo(Way(unit.place, unit.allVictims, p3), unit.info, at, env)
  {
    hide Consistent, Sorted;
    unit.VictimsAre();
  }

  /** Stages only add failures and never touch what is ignored. */
  lemma SameIgnored(p0: Placement, p: Placement)
    requires p.Keys == p0.Keys && forall u :: u in p ==> (p[u] == Ignored <==> p0[u] == Ignored)
    ensures p.Keys - At(p, Ignored) == p0.Keys - At(p0, Ignored)
  {
    assert At(p, Ignored) == At(p0, Ignored);
  }

  lemma EarlyCourse(r: Outcome, unit: BindingUnitInfo, way: Way, p: Placement, info: Infos, at: Start, env: Env)
    requires SortedSo(way, info, at, env) && FailsEarly(unit, way.p0, info, env) && GaveUp(r, p)
    requires p.Keys == way.p0.Keys && forall u :: u in p ==> (p[u] == Ignored <==> way.p0[u] == Ignored)
    ensures Follows(r, unit, way, info, at, env)
  {
    hide SortedSo, FailsEarly;
    SameIgnored(way.p0, p);
  }

  lemma CheckedCourse(
    r: Outcome, unit: BindingUnitInfo, way: Way, p: Placement, info: Infos, at: Start, env: Env)
    requires SortedSo(way, info, at, env) && !FailsEarly(unit, way.p0, info, env)
    requires CheckedSo(unit, BeforeSameNode(way.p0, info, env), way.p3, info, at, env)
    requires p.Keys == way.p0.Keys && forall u :: u in p ==> (p[u] == Ignored <==> way.p0[u] == Ignored)
    requires if Hopeless(unit, way.p3) then p == way.p3 && GaveUp(r, p)
      else p == BeforeBinding(unit, way.p3, info, at, env) && EndsSo(r, unit, p, p, info, env)
    ensures Follows(r, unit, way, info, at, env)
  {
    hide SortedSo, FailsEarly, CheckedSo, Hopeless, Concludes;
    SameIgnored(way.p0, p);
  }
}
