/** What an attempt meets on its way, and when all of it goes well. */
module Verdicts {

  import opened BinderTypes
  import opened TaskIndex
  import opened SetSum
  import opened Placements
  import opened UnitLists
  import opened BindingUnit
  import opened Caches
  import opened SameNode
  import opened Workflow
  import opened Marking
  import opened Assuming
  import opened Attempt

  /** Every verdict and outcome an attempt meets. */
  datatype Env = Env(
    arrivals: Uid -> Arrival,
    lookup: Uid -> Lookup,
    isPreemptor: Uid -> bool,
    complete: Uid -> bool,
    timedOut: Uid -> bool,
    preemptOk: Uid -> bool,
    nodeKnown: Uid -> bool,
    topologyOk: Uid -> bool,
    conflictOk: Uid -> bool,
    volumesOk: Uid -> bool,
    storesOk: Uid -> bool,
    rollbackOk: Uid -> bool,
    forgetOk: Uid -> bool,
    deleteOk: Uid -> bool,
    lockOk: bool,
    bindOk: Uid -> bool)

  /** The pods of a unit that an earlier attempt left in handling. */
  ghost function Handled(pods: set<Uid>, queued: Queued): set<Uid> {
    set u | u in pods && u in queued && queued[u].inHandling
  }

  /** The pods of a unit that this attempt has to place. */
  ghost function Arriving(pods: set<Uid>, queued: Queued, states: States, env: Env): set<Uid> {
    set u | u in pods && u in queued && !queued[u].inHandling && !Skipped(u, env.arrivals(u), states)
  }

  /** The arriving pods bound for a node. */
  ghost function BoundFor(arriving: set<Uid>, env: Env, n: NodeName): set<Uid> {
    set u | u in arriving && env.arrivals(u).node == n
  }

  ghost function VictimsOfAll(s: set<Uid>, env: Env): set<Uid> {
    set u, v | u in s && v in Existing(env.arrivals(u), env.lookup) :: v
  }

  /** All pods that arrive for a node fit there together once their victims are gone. */
  ghost predicate FitTogether(
    arriving: set<Uid>, env: Env, nodes: map<NodeName, NodeInfo>, req: Requests, n: NodeName)
  {
    var mine := BoundFor(arriving, env, n);
    var victims := VictimsOfAll(mine, env);
    && n in nodes && victims <= nodes[n].pods && mine !! nodes[n].pods
    && Total(nodes[n].pods - victims + mine, req) <= nodes[n].allocatable
  }

  /** One arriving pod can start and passes every check, and its victims can be marked. */
  ghost predicate Welcome(u: Uid, env: Env, states: States, markers: Marks) {
    && CanStart(env.arrivals(u), env.lookup, markers, {})
    && env.preemptOk(u) && env.nodeKnown(u) && env.topologyOk(u) && env.conflictOk(u)
    && env.volumesOk(u) && env.storesOk(u) && u !in states
    && Markable(states, Task(u, env.arrivals(u).node, Existing(env.arrivals(u), env.lookup)))
  }

  /** No two pods that arrive want the same victim. */
  ghost predicate Peaceful(arriving: set<Uid>, env: Env) {
    forall u, w :: u in arriving && w in arriving && u != w ==>
      Existing(env.arrivals(u), env.lookup) !! Existing(env.arrivals(w), env.lookup)
  }

  /** Everything an attempt meets goes well. */
  ghost predicate Smooth(
    pods: set<Uid>, isPodGroup: bool, minMember: int, everScheduled: bool, env: Env,
    queued: Queued, states: States, markers: Marks, nodes: map<NodeName, NodeInfo>, req: Requests)
  {
    var held, arriving := Handled(pods, queued), Arriving(pods, queued, states, env);
    && (isPodGroup && !everScheduled ==> |held + arriving| >= minMember)
    && Expired(held, env.isPreemptor, env.complete, env.timedOut) == {}
    && (forall u :: u in arriving ==> Welcome(u, env, states, markers))
    && Peaceful(arriving, env)
    && (forall u :: u in arriving ==> FitTogether(arriving, env, nodes, req, env.arrivals(u).node))
    && (forall u :: u in arriving ==> env.deleteOk(u))
    && (forall u :: u in held + arriving ==> env.bindOk(u))
    && (isPodGroup ==> env.lockOk)
  }

  /** The unit is on course: nothing has failed, and nothing that is left to check will. */
  ghost predicate OnCourse(
    unit: BindingUnitInfo, p: Placement, info: Infos, env: Env,
    states: States, nodes: map<NodeName, NodeInfo>, req: Requests)
  {
    && !Hopeless(unit, p) && At(p, Failed) == {}
    && Expired(At(p, Assumed), env.isPreemptor, env.complete, env.timedOut) == {}
    && (unit.isPodGroup ==> env.lockOk)
    && (forall u :: u in p && p[u] != Ignored ==> env.bindOk(u))
    && (forall u :: u in At(p, New) ==> u in info && Easy(u, info[u], env, states))
    && (forall u :: u in At(p, New) && u in info ==> Roomy(p, info, nodes, req, env.conflictOk, info[u].task.node))
  }

  ghost predicate Easy(u: Uid, r: CheckResult, env: Env, states: States) {
    && env.preemptOk(u) && env.nodeKnown(u) && env.topologyOk(u)
    && env.volumesOk(u) && env.storesOk(u) && u !in states
    && Markable(states, r.task) && env.deleteOk(u)
  }

  /** A pod that could start but failed wants a victim that is taken. */
  lemma Outbid(
    p: Placement, info: Infos, victims: set<Uid>, queued: Queued, states: States, markers: Marks, env: Env, u: Uid)
    returns (v: Uid)
    requires Sorted(p, info, victims, queued, states, markers, env.arrivals, env.lookup) && u in p && p[u] == Failed
    requires CanStart(env.arrivals(u), env.lookup, markers, {})
    ensures v in Existing(env.arrivals(u), env.lookup) && v in victims
  {
    v :| v in Existing(env.arrivals(u), env.lookup) && v in victims;
  }

  lemma SortedInto(
    p: Placement, info: Infos, victims: set<Uid>, queued: Queued, states: States, markers: Marks, env: Env, u: Uid)
    requires Sorted(p, info, victims, queued, states, markers, env.arrivals, env.lookup) && u in p
    ensures p[u] == New || p[u] == Failed <==> u in Arriving(p.Keys, queued, states, env)
    ensures p[u] == Assumed <==> u in Handled(p.Keys, queued)
    ensures p[u] != Ready && p[u] != Waiting
    ensures p[u] == New ==> u in info &&
                            info[u].task == Task(u, env.arrivals(u).node, Existing(env.arrivals(u), env.lookup))
  {
    hide CanStart, Existing, Skipped;
  }

  /** The victims that are taken are those of the new tasks. */
  ghost predicate TakenByNew(p: Placement, info: Infos, victims: set<Uid>) {
    forall v :: v in victims ==> exists u :: u in At(p, New) && u in info && v in info[u].task.victims
  }

  /** When all can start and none is in another's way, every pod that arrives becomes a new task. */
  lemma NoneTurnedAway(
    p: Placement, info: Infos, victims: set<Uid>, env: Env, queued: Queued, states: States, markers: Marks, u: Uid)
    requires TakenByNew(p, info, victims) && u in p
    requires Sorted(p, info, victims, queued, states, markers, env.arrivals, env.lookup)
    requires Peaceful(Arriving(p.Keys, queued, states, env), env)
    requires u in Arriving(p.Keys, queued, states, env) ==> CanStart(env.arrivals(u), env.lookup, markers, {})
    ensures p[u] != Failed
  {
    hide Sorted, Arriving, CanStart, Existing;
    if p[u] == Failed {
      SortedInto(p, info, victims, queued, states, markers, env, u);
      var v := Outbid(p, info, victims, queued, states, markers, env, u);
      var w :| w in At(p, New) && w in info && v in info[w].task.victims;
      SortedInto(p, info, victims, queued, states, markers, env, w);
      assert false;
    }
  }

  /** Where the pods are when the checks begin. */
  lemma AllSorted(
    p: Placement, info: Infos, victims: set<Uid>, env: Env, queued: Queued, states: States, markers: Marks)
    requires TakenByNew(p, info, victims)
    requires Sorted(p, info, victims, queued, states, markers, env.arrivals, env.lookup)
    requires Peaceful(Arriving(p.Keys, queued, states, env), env)
    requires forall u :: u in Arriving(p.Keys, queued, states, env) ==>
      CanStart(env.arrivals(u), env.lookup, markers, {})
    ensures At(p, Failed) == {}
    ensures At(p, Assumed) == Handled(p.Keys, queued)
    ensures At(p, New) == Arriving(p.Keys, queued, states, env)
    ensures Live(p) == At(p, Assumed) + At(p, New)
    ensures AsPlanned(info, At(p, New), env)
  {
    hide Sorted, Peaceful, CanStart, Existing, Skipped, TakenByNew;
    forall u | u in p
      ensures p[u] != Failed && p[u] != Ready && p[u] != Waiting
      ensures p[u] == New <==> u in Arriving(p.Keys, queued, states, env)
      ensures p[u] == Assumed <==> u in Handled(p.Keys, queued)
    {
      NoneTurnedAway(p, info, victims, env, queued, states, markers, u);
      SortedInto(p, info, victims, queued, states, markers, env, u);
    }
    forall u | u in At(p, New)
      ensures u in info && info[u].task == Task(u, env.arrivals(u).node, Existing(env.arrivals(u), env.lookup))
    {
      SortedInto(p, info, victims, queued, states, markers, env, u);
    }
    assert At(p, Ready) == {} && At(p, Waiting) == {};
  }

  /** The tasks are those of the pods that arrive. */
  ghost predicate AsPlanned(info: Infos, tasks: set<Uid>, env: Env) {
    forall u :: u in tasks ==>
      && u in info
      && info[u].task == Task(u, env.arrivals(u).node, Existing(env.arrivals(u), env.lookup))
  }

  /** The tasks of a node want exactly what the pods that arrive for it want. */
  lemma FittingIsRoomy(
    p: Placement, info: Infos, arriving: set<Uid>, env: Env, nodes: map<NodeName, NodeInfo>, req: Requests, n: NodeName)
    requires At(p, New) == arriving && FitTogether(arriving, env, nodes, req, n) && AsPlanned(info, arriving, env)
    requires forall u :: u in arriving ==> env.conflictOk(u)
    ensures Roomy(p, info, nodes, req, env.conflictOk, n)
  {
    hide Existing;
    var mine := AtNode(p, info, New, n);
    assert forall u :: u in p && p[u] == New ==> u in At(p, New);
    assert mine == BoundFor(arriving, env, n);
    assert Preempted(mine, info) == VictimsOfAll(mine, env);
  }

  lemma EasyTasks(
    p: Placement, info: Infos, arriving: set<Uid>, env: Env, states: States, markers: Marks,
    nodes: map<NodeName, NodeInfo>, req: Requests)
    requires At(p, New) == arriving && AsPlanned(info, arriving, env)
    requires forall u :: u in arriving ==> Welcome(u, env, states, markers) && env.deleteOk(u)
    requires forall u :: u in arriving ==> FitTogether(arriving, env, nodes, req, env.arrivals(u).node)
    ensures forall u :: u in At(p, New) ==> u in info && Easy(u, info[u], env, states)
    ensures forall u :: u in At(p, New) && u in info ==>
      Roomy(p, info, nodes, req, env.conflictOk, info[u].task.node)
  {
    hide FitTogether, Roomy, Markable, CanStart, Existing;
    forall u | u in At(p, New)
      ensures u in info && Easy(u, info[u], env, states)
      ensures u in info && Roomy(p, info, nodes, req, env.conflictOk, info[u].task.node)
    {
      assert Welcome(u, env, states, markers);
      FittingIsRoomy(p, info, arriving, env, nodes, req, info[u].task.node);
    }
  }

  /** When everything goes well, the unit sets out on course. */
  lemma SetsOut(
    unit: BindingUnitInfo, p: Placement, info: Infos, victims: set<Uid>, env: Env,
    queued: Queued, states: States, markers: Marks, nodes: map<NodeName, NodeInfo>, req: Requests)
    requires TakenByNew(p, info, victims)
    requires Sorted(p, info, victims, queued, states, markers, env.arrivals, env.lookup)
    requires Smooth(p.Keys, unit.isPodGroup, unit.minMember, unit.everScheduled, env, queued, states, markers, nodes, req)
    ensures OnCourse(unit, p, info, env, states, nodes, req)
  {
    hide Sorted, Live, FitTogether, Roomy, Welcome, CanStart, AsPlanned, Easy, Expired, Arriving, Handled, Peaceful, At,
         TakenByNew;
    var held, arriving := Handled(p.Keys, queued), Arriving(p.Keys, queued, states, env);
    CanAllStart(arriving, env, states, markers);
    AllSorted(p, info, victims, env, queued, states, markers);
    EasyTasks(p, info, arriving, env, states, markers, nodes, req);
    AllAlive(p);
  }

  lemma CanAllStart(arriving: set<Uid>, env: Env, states: States, markers: Marks)
    requires forall u :: u in arriving ==> Welcome(u, env, states, markers)
    ensures forall u :: u in arriving ==> CanStart(env.arrivals(u), env.lookup, markers, {})
  {
    hide CanStart, Markable;
    assert forall u :: u in arriving ==> Welcome(u, env, states, markers);
  }

  lemma AllAlive(p: Placement)
    requires At(p, Failed) == {}
    ensures forall u :: u in p && p[u] != Ignored ==> u in Live(p)
  {
    LiveIs(p);
    assert forall u :: u in p && p[u] == Failed ==> u in At(p, Failed);
  }

  /** Moving the assumed tasks on leaves the unit on course. */
  lemma PreemptionKeepsCourse(
    unit: BindingUnitInfo, p0: Placement, p1: Placement, info: Infos, env: Env,
    states: States, nodes: map<NodeName, NodeInfo>, req: Requests)
    requires OnCourse(unit, p0, info, env, states, nodes, req)
    requires p1 == Decision(p0, info, env.isPreemptor, env.complete, env.timedOut, env.preemptOk)
    ensures OnCourse(unit, p1, info, env, states, nodes, req)
  {
    hide Roomy, Live, Decision, Easy;
    forall u | u in p1
      ensures u in p0 && p1[u] == if p0[u] == Assumed then p1[u] else p0[u]
      ensures p0[u] == Assumed ==> p1[u] == Ready || p1[u] == Waiting
    {
      DecisionAt(unit, p0, info, env, states, nodes, req, u);
    }
    DecisionKeys(p0, info, env);
    LiveIs(p0);
    LiveIs(p1);
    assert Live(p1) == Live(p0);
    assert At(p1, New) == At(p0, New) && At(p1, Failed) == {} && At(p1, Assumed) == {};
    forall u | u in At(p1, New) && u in info
      ensures Roomy(p1, info, nodes, req, env.conflictOk, info[u].task.node)
    {
      SameRoom(p0, p1, info, nodes, req, env.conflictOk, info[u].task.node);
    }
  }

  lemma DecisionKeys(p0: Placement, info: Infos, env: Env)
    ensures Decision(p0, info, env.isPreemptor, env.complete, env.timedOut, env.preemptOk).Keys == p0.Keys
  {
  }

  lemma DecisionAt(
    unit: BindingUnitInfo, p0: Placement, info: Infos, env: Env,
    states: States, nodes: map<NodeName, NodeInfo>, req: Requests, u: Uid)
    requires OnCourse(unit, p0, info, env, states, nodes, req)
    requires u in Decision(p0, info, env.isPreemptor, env.complete, env.timedOut, env.preemptOk)
    ensures
      var p1 := Decision(p0, info, env.isPreemptor, env.complete, env.timedOut, env.preemptOk);
      && u in p0 && (p0[u] != Assumed ==> p1[u] == p0[u])
      && (p0[u] == Assumed ==> p1[u] == Ready || p1[u] == Waiting)
  {
    hide Roomy, Live, InProgress, Preempts, Hopeless;
    assert p0[u] == New ==> u in At(p0, New) && Easy(u, info[u], env, states);
    assert p0[u] == Assumed ==> u in At(p0, Assumed);
    assert u in Expired(At(p0, Assumed), env.isPreemptor, env.complete, env.timedOut) ==> false;
  }

  lemma SameRoom(
    p0: Placement, p1: Placement, info: Infos, nodes: map<NodeName, NodeInfo>, req: Requests,
    conflictOk: Uid -> bool, n: NodeName)
    requires At(p1, New) == At(p0, New) && Roomy(p0, info, nodes, req, conflictOk, n)
    ensures Roomy(p1, info, nodes, req, conflictOk, n)
  {
    assert forall u :: u in AtNode(p1, info, New, n) <==> u in At(p1, New) && u in info && info[u].task.node == n;
    assert forall u :: u in AtNode(p0, info, New, n) <==> u in At(p0, New) && u in info && info[u].task.node == n;
    assert AtNode(p1, info, New, n) == AtNode(p0, info, New, n);
  }

  /** All new tasks are admitted, and nothing stands in the way of marking, assuming and binding them. */
  ghost predicate Clear(unit: BindingUnitInfo, p: Placement, info: Infos, env: Env, states: States) {
    && !Hopeless(unit, p) && At(p, Failed) == {}
    && AllMarkable(p, info, states)
    && AllAssumable(p, info, states, env.volumesOk, env.storesOk)
    && Unhindered(unit, p, info, env)
  }

  /** Every deletion, the lock and every bind call succeed. */
  ghost predicate Unhindered(unit: BindingUnitInfo, p: Placement, info: Infos, env: Env) {
    && (unit.isPodGroup ==> env.lockOk)
    && (forall u :: u in NewcomersAt(p, info, Waiting) ==> env.deleteOk(u))
    && (forall u :: u in At(p, Ready) ==> env.bindOk(u))
  }

  lemma NoneLost(
    unit: BindingUnitInfo, p2: Placement, p3: Placement, info: Infos, env: Env,
    states: States, nodes: map<NodeName, NodeInfo>, req: Requests)
    requires OnCourse(unit, p2, info, env, states, nodes, req)
    requires SinceStart(p2, p3) && Generous(p2, p3, info, nodes, req, env.conflictOk)
    ensures Live(p3) == Live(p2) && At(p3, Failed) == {} && !Hopeless(unit, p3)
  {
    hide Roomy, Live, Easy;
    forall u | u in p3
      ensures p3[u] != Failed
    {
      assert p2[u] == Failed ==> u in At(p2, Failed);
      assert p2[u] == New ==> u in At(p2, New);
    }
    LiveIs(p2);
    LiveIs(p3);
    assert Live(p3) == Live(p2);
  }

  /** No new task of a unit on course is turned away from its node. */
  lemma AllAdmitted(
    unit: BindingUnitInfo, p2: Placement, p3: Placement, info: Infos, env: Env,
    states: States, nodes: map<NodeName, NodeInfo>, req: Requests)
    requires OnCourse(unit, p2, info, env, states, nodes, req)
    requires SinceStart(p2, p3) && Generous(p2, p3, info, nodes, req, env.conflictOk)
    requires forall n :: Admitted(p2, info, n) == {}
    ensures Clear(unit, p3, info, env, states)
  {
    hide Roomy, Live, Generous, Hopeless, Markable;
    NoneLost(unit, p2, p3, info, env, states, nodes, req);
    forall u | u in NewcomersAt(p3, info, Ready) + NewcomersAt(p3, info, Waiting)
      ensures Easy(u, info[u], env, states)
    {
      assert p2[u] != New ==> u in Admitted(p2, info, info[u].task.node);
      assert u in At(p2, New);
    }
    forall u | u in At(p3, Ready)
      ensures env.bindOk(u)
    {
      assert p2[u] != Ignored;
    }
  }

  /** Everything can go well: one pod arrives for an empty node that has room for it. */
  lemma SmoothHappens(env: Env, req: Requests)
    requires env.arrivals(1) == Arrival(false, true, "n", None)
    requires env.preemptOk(1) && env.nodeKnown(1) && env.topologyOk(1) && env.conflictOk(1)
    requires env.volumesOk(1) && env.storesOk(1) && env.deleteOk(1) && env.bindOk(1)
    ensures Smooth({1}, false, 0, false, env, map[1 := QueuedPod(None, false)], map[], map[],
                   map["n" := NodeInfo({}, 0, req(1))], req)
  {
    var queued: Queued := map[1 := QueuedPod(None, false)];
    var states: States := map[];
    assert Handled({1}, queued) == {} && Arriving({1}, queued, states, env) == {1};
    assert BoundFor({1}, env, "n") == {1} && VictimsOfAll({1}, env) == {};
    assert {} - {} + {1} == {1};
    SumRemove({1}, 1, x => req(x));
    assert {1} - {1} == {};
  }
}
