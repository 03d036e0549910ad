/**
 The same-node conflict check: one worker per node, all running at once.

 Workers are interleaved at every point where one of them takes the lock of the unit. The
 admission of a node is proved sound in every interleaving: the victims taken off the
 cloned node are exactly those of the tasks admitted there, and everything admitted fits.
*/
module SameNode {

  import opened BinderTypes
  import opened TaskIndex
  import opened Placements
  import opened UnitLists
  import opened BindingUnit
  import opened SetSum
  import opened Caches

  /** The program counter of a worker, with its clone of the node. */
  datatype Worker =
    | Idle
    | Checking(clone: NodeInfo)
    | Retesting(clone: NodeInfo)
    | Leaving
    | Done

  /** The new tasks of this attempt that were admitted to a node. */
  ghost function Admitted(p: Placement, info: Infos, n: NodeName): set<Uid> {
    set u | u in p && u in info && (p[u] == Ready || p[u] == Waiting) && !info[u].assumed && info[u].task.node == n
  }

  /** The pods that a set of tasks preempts. */
  ghost function Preempted(s: set<Uid>, info: Infos): set<Uid> {
    set u, v | u in s && u in info && v in info[u].task.victims :: v
  }

  /**
   What was admitted to a node fits there once exactly the victims of the admitted tasks
   are gone; if one of them preempts, all of them wait, otherwise all are ready.
  */
  ghost predicate AdmissionSound(
    p: Placement, info: Infos, nodes: map<NodeName, NodeInfo>, req: Requests, n: NodeName)
  {
    var a := Admitted(p, info, n);
    var v := Preempted(a, info);
    a != {} ==>
      && n in nodes
      && v <= nodes[n].pods
      && Total(nodes[n].pods - v + a, req) <= nodes[n].allocatable
      && (forall u :: u in a ==> p[u] == if v != {} then Waiting else Ready)
  }

  /** Mid-check, the clone is the node without the victims of its new tasks, plus what was checked. */
  ghost predicate CloneTracks(
    c: NodeInfo, n: NodeName, p: Placement, info: Infos, unchecked: set<Uid>,
    nodes: map<NodeName, NodeInfo>, req: Requests)
  {
    var mine := AtNode(p, info, New, n);
    var checked := mine - unchecked;
    var v := Preempted(mine, info);
    && n in nodes
    && v <= nodes[n].pods
    && Accounted(c, req)
    && c.allocatable == nodes[n].allocatable
    && c.pods == nodes[n].pods - v + checked
    && (checked != {} ==> c.requested <= c.allocatable)
  }

  ghost predicate WorkerOk(
    w: Worker, n: NodeName, p: Placement, info: Infos, unchecked: set<Uid>,
    nodes: map<NodeName, NodeInfo>, req: Requests)
  {
    match w
    case Idle => Admitted(p, info, n) == {} && AtNode(p, info, New, n) <= unchecked
    case Checking(c) => Admitted(p, info, n) == {} && CloneTracks(c, n, p, info, unchecked, nodes, req)
    case Retesting(c) => Admitted(p, info, n) == {} && CloneTracks(c, n, p, info, unchecked, nodes, req)
    case _ => AdmissionSound(p, info, nodes, req, n)
  }

  /** A step that moves only new tasks of node `n` shows nothing to the worker of another node. */
  lemma OtherNodeUntouched(
    w: Worker, m: NodeName, p: Placement, info: Infos, unchecked: set<Uid>,
    nodes: map<NodeName, NodeInfo>, req: Requests,
    n: NodeName, moved: set<Uid>, b: Place, unchecked': set<Uid>)
    requires WorkerOk(w, m, p, info, unchecked, nodes, req)
    requires m != n && moved <= AtNode(p, info, New, n)
    requires unchecked' <= unchecked && unchecked - unchecked' <= AtNode(p, info, New, n)
    ensures WorkerOk(w, m, Relocate(p, moved, b), info, unchecked', nodes, req)
  {
    var p' := Relocate(p, moved, b);
    assert AtNode(p', info, New, m) == AtNode(p, info, New, m);
    assert Admitted(p', info, m) == Admitted(p, info, m);
    assert AtNode(p, info, New, m) !! AtNode(p, info, New, n);
    assert AtNode(p, info, New, m) - unchecked' == AtNode(p, info, New, m) - unchecked;
    assert forall u :: u in Admitted(p, info, m) ==> p'[u] == p[u];
  }

  /** Fewer live tasks than needed stays fewer: a failed unit stays failed. */
  lemma DoomIsStable(p: Placement, p': Placement)
    requires p.Keys == p'.Keys
    requires forall u :: u in p && p[u] == Failed ==> p'[u] == Failed
    requires forall u :: u in p && p[u] == Ignored ==> p'[u] == Ignored
    ensures |Live(p')| <= |Live(p)|
    ensures At(p, Failed) <= At(p', Failed)
  {
    hide Live;
    forall u | u in Live(p')
      ensures u in Live(p)
    {
      LiveMember(p, u);
      LiveMember(p', u);
    }
    Subset(Live(p'), Live(p));
  }

  lemma LiveMember(p: Placement, u: Uid)
    ensures u in Live(p) <==> u in p && p[u] != Failed && p[u] != Ignored
  {
    if u in p && p[u] != Failed && p[u] != Ignored {
      assert p[u] == Assumed || p[u] == New || p[u] == Ready || p[u] == Waiting;
    }
  }

  lemma Subset(a: set<Uid>, b: set<Uid>)
    requires a <= b
    ensures |a| <= |b|
    ensures a != b ==> |a| < |b|
  {
    assert b == a + (b - a);
    assert b - a == {} ==> a == b;
  }

  /** All new tasks of a node gone without an admission: nothing left to be sound about. */
  lemma NothingAdmitted(p: Placement, info: Infos, nodes: map<NodeName, NodeInfo>, req: Requests, n: NodeName)
    requires Admitted(p, info, n) == {}
    ensures AdmissionSound(Relocate(p, AtNode(p, info, New, n), Failed), info, nodes, req, n)
    ensures AtNode(Relocate(p, AtNode(p, info, New, n), Failed), info, New, n) == {}
  {
    var p' := Relocate(p, AtNode(p, info, New, n), Failed);
    forall u | u in Admitted(p', info, n)
      ensures u in Admitted(p, info, n)
    {
    }
  }

  /** Takes the victims off a clone of the node; fails if one of them is not on it. */
  method RemoveVictims(node: NodeInfo, victims: set<Uid>, req: Requests) returns (ok: bool, clone: NodeInfo)
    requires Accounted(node, req)
    ensures ok <==> victims <= node.pods
    ensures ok ==> clone.pods == node.pods - victims
    ensures ok ==> Accounted(clone, req) && clone.allocatable == node.allocatable
  {
    clone := node;
    var todo := victims;
    while todo != {}
      invariant todo <= victims
      invariant victims - todo <= node.pods
      invariant Accounted(clone, req) && clone.allocatable == node.allocatable
      invariant clone.pods == node.pods - (victims - todo)
    {
      var v :| v in todo;
      if v !in clone.pods {
        return false, clone;
      }
      RemovePodAccounted(clone, v, req);
      clone := RemovePod(clone, v, req);
      todo := todo - {v};
    }
    return true, clone;
  }

  /** Clones the node and takes the victims of its new tasks off the clone. */
  method StartWorker(unit: BindingUnitInfo, cache: BinderCache, n: NodeName, ghost unchecked: set<Uid>)
    returns (w: Worker)
    requires unit.Valid() && cache.Valid()
    requires WorkerOk(Idle, n, unit.place, unit.info, unchecked, cache.nodes, cache.request)
    modifies unit
    ensures unit.Valid() && unit.info == old(unit.info)
    ensures w.Checking? || w.Leaving?
    ensures w.Checking? <==>
      n in cache.nodes && Preempted(AtNode(old(unit.place), unit.info, New, n), unit.info) <= cache.nodes[n].pods
    ensures w.Checking? ==> unit.place == old(unit.place)
    ensures w.Leaving? ==>
      && unit.place == Relocate(old(unit.place), AtNode(old(unit.place), unit.info, New, n), Failed)
      && AtNode(unit.place, unit.info, New, n) == {}
    ensures WorkerOk(w, n, unit.place, unit.info, unchecked, cache.nodes, cache.request)
  {
    hide Consistent, AdmissionSound, Accounted;
    NothingAdmitted(unit.place, unit.info, cache.nodes, cache.request, n);
    if n !in cache.nodes {
      unit.MoveAllNewTasksOnNodeToFailedList(n);
      return Leaving;
    }
    unit.BucketIs(n);
    VictimsArePreempted(unit.place, unit.info, n);
    var ok, clone := RemoveVictims(cache.nodes[n], VictimsAt(unit.newTasks, n), cache.request);
    if !ok {
      unit.MoveAllNewTasksOnNodeToFailedList(n);
      return Leaving;
    }
    assert AtNode(unit.place, unit.info, New, n) - unchecked == {};
    return Checking(clone);
  }

  lemma VictimsArePreempted(p: Placement, info: Infos, n: NodeName)
    ensures VictimsOn(Fresh(p, info), n) == Preempted(AtNode(p, info, New, n), info)
  {
    var m := Fresh(p, info);
    forall v | v in VictimsOn(m, n)
      ensures v in Preempted(AtNode(p, info, New, n), info)
    {
      var u :| u in m && m[u].node == n && v in m[u].victims;
      assert u in AtNode(p, info, New, n);
    }
    forall v | v in Preempted(AtNode(p, info, New, n), info)
      ensures v in VictimsOn(m, n)
    {
      var u :| u in AtNode(p, info, New, n) && v in info[u].task.victims;
      assert u in m && m[u] == info[u].task;
    }
  }

  /** A task that fits is added to the clone. */
  lemma TaskFits(
    c: NodeInfo, n: NodeName, p: Placement, info: Infos, unchecked: set<Uid>,
    nodes: map<NodeName, NodeInfo>, req: Requests, u: Uid)
    requires CloneTracks(c, n, p, info, unchecked, nodes, req)
    requires u in AtNode(p, info, New, n) * unchecked
    requires c.requested + req(u) <= c.allocatable
    ensures CloneTracks(AddPod(c, u, req), n, p, info, unchecked - {u}, nodes, req)
  {
    hide AtNode, Preempted, Accounted;
    AddPodAccounted(c, u, req);
    var mine := AtNode(p, info, New, n);
    assert mine - (unchecked - {u}) == mine - unchecked + {u};
  }

  /** A task without victims fails alone, and the clone still tracks the rest. */
  lemma BystanderFails(
    c: NodeInfo, n: NodeName, p: Placement, info: Infos, unchecked: set<Uid>,
    nodes: map<NodeName, NodeInfo>, req: Requests, u: Uid)
    requires CloneTracks(c, n, p, info, unchecked, nodes, req)
    requires Admitted(p, info, n) == {}
    requires u in AtNode(p, info, New, n) * unchecked && info[u].task.victims == {}
    ensures CloneTracks(c, n, Relocate(p, {u}, Failed), info, unchecked - {u}, nodes, req)
    ensures Admitted(Relocate(p, {u}, Failed), info, n) == {}
  {
    hide Accounted;
    var p' := Relocate(p, {u}, Failed);
    var mine, mine' := AtNode(p, info, New, n), AtNode(p', info, New, n);
    assert mine' == mine - {u};
    assert mine' - (unchecked - {u}) == mine - unchecked;
    SamePreempted(mine, info, u);
    forall w | w in Admitted(p', info, n)
      ensures w in Admitted(p, info, n)
    {
    }
  }

  lemma SamePreempted(s: set<Uid>, info: Infos, u: Uid)
    requires u in info && info[u].task.victims == {}
    ensures Preempted(s - {u}, info) == Preempted(s, info)
  {
    forall v | v in Preempted(s, info)
      ensures v in Preempted(s - {u}, info)
    {
      var w :| w in s && w in info && v in info[w].task.victims;
      assert w in s - {u};
    }
  }

  /** When every task of the node has been checked, moving them on is a sound admission. */
  lemma NodeAdmitted(
    c: NodeInfo, n: NodeName, p: Placement, info: Infos, unchecked: set<Uid>,
    nodes: map<NodeName, NodeInfo>, req: Requests, b: Place)
    requires CloneTracks(c, n, p, info, unchecked, nodes, req)
    requires Admitted(p, info, n) == {}
    requires InfoAgrees(p, info)
    requires AtNode(p, info, New, n) * unchecked == {}
    requires b == if Preempted(AtNode(p, info, New, n), info) != {} then Waiting else Ready
    ensures AdmissionSound(Relocate(p, AtNode(p, info, New, n), b), info, nodes, req, n)
    ensures AtNode(Relocate(p, AtNode(p, info, New, n), b), info, New, n) == {}
  {
    hide Preempted;
    var mine := AtNode(p, info, New, n);
    var p' := Relocate(p, mine, b);
    assert forall u :: u in mine ==> u !in unchecked by {
      assert forall u :: u in mine && u in unchecked ==> u in mine * unchecked;
    }
    assert mine - unchecked == mine;
    assert Admitted(p', info, n) == Admitted(p, info, n) + mine;
    assert Admitted(p', info, n) == mine;
  }

  /** Checks one task of the node against the clone. */
  method CheckTask(
    unit: BindingUnitInfo, cache: BinderCache, n: NodeName, clone: NodeInfo, unchecked: set<Uid>,
    u: Uid, conflictOk: bool)
    returns (w: Worker)
    requires unit.Valid() && u in AtNode(unit.place, unit.info, New, n) * unchecked
    requires WorkerOk(Checking(clone), n, unit.place, unit.info, unchecked, cache.nodes, cache.request)
    modifies unit
    ensures unit.Valid() && unit.info == old(unit.info)
    ensures w.Checking? || w.Retesting? || w.Leaving?
    ensures w.Checking? <==> conflictOk && clone.requested + cache.request(u) <= clone.allocatable
    ensures w.Leaving? ==> unit.info[u].task.victims != {}
    ensures w.Retesting? ==> unit.info[u].task.victims == {}
    ensures w.Checking? ==> unit.place == old(unit.place)
    ensures w.Retesting? ==> unit.place == Relocate(old(unit.place), {u}, Failed)
    ensures w.Leaving? ==>
      && unit.place == Relocate(old(unit.place), AtNode(old(unit.place), unit.info, New, n), Failed)
      && AtNode(unit.place, unit.info, New, n) == {}
    ensures WorkerOk(w, n, unit.place, unit.info, unchecked - {u}, cache.nodes, cache.request)
  {
    hide Consistent, AdmissionSound, CloneTracks;
    unit.BucketIs(n);
    var task := Bucket(unit.newTasks, n)[u];
    if conflictOk && clone.requested + cache.request(u) <= clone.allocatable {
      TaskFits(clone, n, unit.place, unit.info, unchecked, cache.nodes, cache.request, u);
      return Checking(AddPod(clone, u, cache.request));
    }
    if task.victims != {} {
      NothingAdmitted(unit.place, unit.info, cache.nodes, cache.request, n);
      unit.MoveAllNewTasksOnNodeToFailedList(n);
      return Leaving;
    }
    BystanderFails(clone, n, unit.place, unit.info, unchecked, cache.nodes, cache.request, u);
    unit.KnownInfo();
    unit.AddFailedTask(task, false);
    return Retesting(clone);
  }

  /** Moves the tasks that survived all checks on: waiting if one of them preempts, else ready. */
  method FinishNode(
    unit: BindingUnitInfo, cache: BinderCache, n: NodeName, clone: NodeInfo, ghost unchecked: set<Uid>)
    requires unit.Valid() && AtNode(unit.place, unit.info, New, n) * unchecked == {}
    requires WorkerOk(Checking(clone), n, unit.place, unit.info, unchecked, cache.nodes, cache.request)
    modifies unit
    ensures unit.Valid() && unit.info == old(unit.info)
    ensures
      var mine := AtNode(old(unit.place), unit.info, New, n);
      unit.place == Relocate(old(unit.place), mine, if Preempted(mine, unit.info) != {} then Waiting else Ready)
    ensures AtNode(unit.place, unit.info, New, n) == {}
    ensures WorkerOk(Leaving, n, unit.place, unit.info, unchecked, cache.nodes, cache.request)
  {
    hide Consistent, AdmissionSound, CloneTracks, Admitted;
    unit.KnownInfo();
    var need := unit.NewTasksOnNodeNeedPreemption(n);
    PreemptedNonEmpty(AtNode(unit.place, unit.info, New, n), unit.info);
    if need {
      NodeAdmitted(clone, n, unit.place, unit.info, unchecked, cache.nodes, cache.request, Waiting);
      unit.MoveAllNewTasksOnNodeToWaitingList(n);
    } else {
      NodeAdmitted(clone, n, unit.place, unit.info, unchecked, cache.nodes, cache.request, Ready);
      unit.MoveAllNewTasksOnNodeToReadyList(n);
    }
  }

  lemma PreemptedNonEmpty(s: set<Uid>, info: Infos)
    requires forall u :: u in s ==> u in info
    ensures Preempted(s, info) != {} <==> exists u :: u in s && info[u].task.victims != {}
  {
    if u :| u in s && info[u].task.victims != {} {
      var v :| v in info[u].task.victims;
      assert v in Preempted(s, info);
    }
  }

  /** Every worker keeps its own promise about its own node. */
  ghost predicate AllWorkersOk(
    workers: map<NodeName, Worker>, p: Placement, info: Infos, unchecked: set<Uid>,
    nodes: map<NodeName, NodeInfo>, req: Requests)
  {
    forall n :: n in workers ==> WorkerOk(workers[n], n, p, info, unchecked, nodes, req)
  }

  /** One worker steps, everyone keeps their promise. */
  lemma AllStep(
    workers: map<NodeName, Worker>, p: Placement, info: Infos, unchecked: set<Uid>,
    nodes: map<NodeName, NodeInfo>, req: Requests,
    n: NodeName, w: Worker, moved: set<Uid>, b: Place, unchecked': set<Uid>)
    requires AllWorkersOk(workers, p, info, unchecked, nodes, req)
    requires moved <= AtNode(p, info, New, n)
    requires unchecked' <= unchecked && unchecked - unchecked' <= AtNode(p, info, New, n)
    requires WorkerOk(w, n, Relocate(p, moved, b), info, unchecked', nodes, req)
    ensures AllWorkersOk(workers[n := w], Relocate(p, moved, b), info, unchecked', nodes, req)
  {
    hide WorkerOk, AtNode;
    forall m | m in workers && m != n
      ensures WorkerOk(workers[m], m, Relocate(p, moved, b), info, unchecked', nodes, req)
    {
      OtherNodeUntouched(workers[m], m, p, info, unchecked, nodes, req, n, moved, b, unchecked');
    }
  }

  lemma HopelessStays(unit: BindingUnitInfo, p: Placement, info: Infos, n: NodeName, moved: set<Uid>, b: Place)
    requires Hopeless(unit, p) && moved <= AtNode(p, info, New, n)
    ensures Hopeless(unit, Relocate(p, moved, b))
  {
    DoomIsStable(p, Relocate(p, moved, b));
  }

  /** Workers that finished left no new task behind, unless the unit has failed. */
  ghost predicate LeftNothing(workers: map<NodeName, Worker>, p: Placement, info: Infos) {
    forall n :: n in workers && (workers[n].Leaving? || workers[n].Done?) ==> AtNode(p, info, New, n) == {}
  }

  lemma LeftNothingStep(
    workers: map<NodeName, Worker>, p: Placement, info: Infos, n: NodeName, w: Worker, moved: set<Uid>, b: Place)
    requires LeftNothing(workers, p, info)
    requires moved <= AtNode(p, info, New, n) && b != New
    requires w.Leaving? || w.Done? ==> AtNode(Relocate(p, moved, b), info, New, n) == {}
    ensures LeftNothing(workers[n := w], Relocate(p, moved, b), info)
  {
    var p' := Relocate(p, moved, b);
    forall m | m in workers && m != n
      ensures AtNode(p', info, New, m) <= AtNode(p, info, New, m)
    {
    }
  }

  function IdleOnes(workers: map<NodeName, Worker>): set<NodeName> {
    set n | n in workers && workers[n].Idle?
  }

  function CheckingOnes(workers: map<NodeName, Worker>): set<NodeName> {
    set n | n in workers && workers[n].Checking?
  }

  function RetestingOnes(workers: map<NodeName, Worker>): set<NodeName> {
    set n | n in workers && workers[n].Retesting?
  }

  function LeavingOnes(workers: map<NodeName, Worker>): set<NodeName> {
    set n | n in workers && workers[n].Leaving?
  }

  /** How a step changes the four groups; used only for termination. */
  lemma GroupsAfter(workers: map<NodeName, Worker>, n: NodeName, w: Worker)
    requires n in workers && !w.Idle?
    ensures IdleOnes(workers[n := w]) == IdleOnes(workers) - {n}
    ensures RetestingOnes(workers[n := w]) == RetestingOnes(workers) - {n} + (if w.Retesting? then {n} else {})
    ensures CheckingOnes(workers[n := w]) == CheckingOnes(workers) - {n} + (if w.Checking? then {n} else {})
    ensures LeavingOnes(workers[n := w]) == LeavingOnes(workers) - {n} + (if w.Leaving? then {n} else {})
  {
  }

  /** Every turn is a step down in the order the loop of the check terminates by. */
  lemma TurnShrinks(workers: map<NodeName, Worker>, n: NodeName, w: Worker, unchecked: set<Uid>, rest: set<Uid>)
    requires n in workers && !workers[n].Done? && !w.Idle? && rest <= unchecked
    requires match workers[n]
      case Idle => true
      case Checking(_) => rest < unchecked || w.Leaving?
      case Retesting(_) => w.Checking? || w.Leaving?
      case _ => w.Done?
    ensures (
      |IdleOnes(workers)|, |unchecked|, |RetestingOnes(workers)|, |CheckingOnes(workers)|, |LeavingOnes(workers)|
      decreases to
      |IdleOnes(workers[n := w])|, |rest|, |RetestingOnes(workers[n := w])|,
      |CheckingOnes(workers[n := w])|, |LeavingOnes(workers[n := w])|)
  {
    GroupsAfter(workers, n, w);
    Subset(rest, unchecked);
    assert n in IdleOnes(workers) <==> workers[n].Idle?;
    assert n in RetestingOnes(workers) <==> workers[n].Retesting?;
    assert n in CheckingOnes(workers) <==> workers[n].Checking?;
    assert n in LeavingOnes(workers) <==> workers[n].Leaving?;
    hide IdleOnes, RetestingOnes, CheckingOnes, LeavingOnes;
  }

  /** During the check only new tasks move, and they move on for good. */
  ghost predicate SinceStart(p0: Placement, p: Placement) {
    && p.Keys == p0.Keys
    && (forall u :: u in p ==>
          p[u] == p0[u] || (p0[u] == New && (p[u] == Ready || p[u] == Waiting || p[u] == Failed)))
  }

  /** All new tasks of a node pass their conflict checks and fit together once their victims are gone. */
  ghost predicate Roomy(
    p0: Placement, info: Infos, nodes: map<NodeName, NodeInfo>, req: Requests, conflictOk: Uid -> bool, n: NodeName)
  {
    var mine := AtNode(p0, info, New, n);
    var victims := Preempted(mine, info);
    && n in nodes && victims <= nodes[n].pods && mine !! nodes[n].pods
    && Total(nodes[n].pods - victims + mine, req) <= nodes[n].allocatable
    && (forall u :: u in mine ==> conflictOk(u))
  }

  /** No task is turned away from a node where all would fit. */
  ghost predicate Generous(
    p0: Placement, p: Placement, info: Infos, nodes: map<NodeName, NodeInfo>, req: Requests, conflictOk: Uid -> bool)
  {
    && (forall u :: u in p0 && p0[u] == New ==> u in info && !info[u].assumed)
    && (forall u :: u in p0 && p0[u] == New && Roomy(p0, info, nodes, req, conflictOk, info[u].task.node) ==>
          u in p && p[u] != Failed)
  }

  /** What was admitted, or is checked and still new, has passed its conflict check. */
  ghost predicate Vetted(p0: Placement, p: Placement, unchecked: set<Uid>, conflictOk: Uid -> bool) {
    forall u | u in p0 && p0[u] == New && u in p ::
      p[u] == Ready || p[u] == Waiting || (p[u] == New && u !in unchecked) ==> conflictOk(u)
  }

  /** The check of a task fails: by its verdict, or since it does not fit beside some tasks that passed. */
  ghost predicate CheckFails(
    p0: Placement, info: Infos, nodes: map<NodeName, NodeInfo>, req: Requests, conflictOk: Uid -> bool,
    n: NodeName, u: Uid)
  {
    !conflictOk(u) || exists passed :: LeavesNoRoom(p0, info, nodes, req, conflictOk, n, passed, u)
  }

  /** Tasks that passed and fit the node without the victims, beside which the task does not fit. */
  ghost predicate LeavesNoRoom(
    p0: Placement, info: Infos, nodes: map<NodeName, NodeInfo>, req: Requests, conflictOk: Uid -> bool,
    n: NodeName, passed: set<Uid>, u: Uid)
  {
    var mine := AtNode(p0, info, New, n);
    && n in nodes && passed <= mine - {u} && (forall w :: w in passed ==> conflictOk(w))
    && (var rest := nodes[n].pods - Preempted(mine, info) + passed;
        && (passed != {} ==> Total(rest, req) <= nodes[n].allocatable)
        && Total(rest, req) + req(u) > nodes[n].allocatable)
  }

  /** Why a new task failed: its node could not be prepared, or its own check or that of a preemptor beside it failed. */
  ghost predicate Blamed(
    p0: Placement, p: Placement, info: Infos, nodes: map<NodeName, NodeInfo>, req: Requests, conflictOk: Uid -> bool,
    n: NodeName, u: Uid)
  {
    || n !in nodes
    || !(Preempted(AtNode(p0, info, New, n), info) <= nodes[n].pods)
    || exists w :: w in AtNode(p0, info, New, n) && (w == u || info[w].task.victims != {})
         && w in p && p[w] == Failed && CheckFails(p0, info, nodes, req, conflictOk, n, w)
  }

  /** No task fails without a reason. */
  ghost predicate Grounded(
    p0: Placement, p: Placement, info: Infos, nodes: map<NodeName, NodeInfo>, req: Requests, conflictOk: Uid -> bool)
  {
    && p.Keys == p0.Keys
    && (forall u :: u in p0 && p0[u] == New && p[u] == Failed ==>
          u in info && Blamed(p0, p, info, nodes, req, conflictOk, info[u].task.node, u))
  }

  /** Until a worker leaves its node, every preemptor of the node is still new. */
  ghost predicate PreemptorsStay(workers: map<NodeName, Worker>, p0: Placement, p: Placement, info: Infos) {
    forall n, u | n in workers && !workers[n].Leaving? && !workers[n].Done? && u in AtNode(p0, info, New, n) ::
      info[u].task.victims != {} ==> u in AtNode(p, info, New, n)
  }

  /** What the verdicts so far say about the tasks. */
  ghost predicate Judged(
    p0: Placement, p: Placement, info: Infos, workers: map<NodeName, Worker>, unchecked: set<Uid>,
    nodes: map<NodeName, NodeInfo>, req: Requests, conflictOk: Uid -> bool)
  {
    && Vetted(p0, p, unchecked, conflictOk)
    && Grounded(p0, p, info, nodes, req, conflictOk)
    && PreemptorsStay(workers, p0, p, info)
  }

  lemma VettedStep(
    p0: Placement, p: Placement, info: Infos, unchecked: set<Uid>, conflictOk: Uid -> bool,
    n: NodeName, moved: set<Uid>, b: Place, rest: set<Uid>)
    requires Vetted(p0, p, unchecked, conflictOk) && moved <= AtNode(p, info, New, n)
    requires b == Failed || (b != New && moved !! unchecked)
    requires forall u :: u in unchecked && u !in rest ==> conflictOk(u) || (u in moved && b == Failed)
    ensures Vetted(p0, Relocate(p, moved, b), rest, conflictOk)
  {
  }

  lemma BlameStays(
    p0: Placement, p: Placement, info: Infos, nodes: map<NodeName, NodeInfo>, req: Requests, conflictOk: Uid -> bool,
    n: NodeName, u: Uid, p': Placement)
    requires p.Keys == p0.Keys == p'.Keys && Blamed(p0, p, info, nodes, req, conflictOk, n, u)
    requires forall w :: w in p && p[w] == Failed ==> p'[w] == Failed
    ensures Blamed(p0, p', info, nodes, req, conflictOk, n, u)
  {
    hide CheckFails, Preempted;
  }

  lemma GroundedStep(
    p0: Placement, p: Placement, info: Infos, nodes: map<NodeName, NodeInfo>, req: Requests, conflictOk: Uid -> bool,
    n: NodeName, moved: set<Uid>, b: Place)
    requires Grounded(p0, p, info, nodes, req, conflictOk) && moved <= AtNode(p, info, New, n)
    requires b == Failed ==>
      forall u :: u in moved ==> Blamed(p0, Relocate(p, moved, b), info, nodes, req, conflictOk, n, u)
    ensures Grounded(p0, Relocate(p, moved, b), info, nodes, req, conflictOk)
  {
    hide Blamed;
    var p' := Relocate(p, moved, b);
    forall u | u in p0 && p0[u] == New && p'[u] == Failed && u !in moved
      ensures u in info && Blamed(p0, p', info, nodes, req, conflictOk, info[u].task.node, u)
    {
      BlameStays(p0, p, info, nodes, req, conflictOk, info[u].task.node, u, p');
    }
  }

  /** A step of one worker, judged. */
  lemma JudgedStep(
    p0: Placement, p: Placement, info: Infos, workers: map<NodeName, Worker>, unchecked: set<Uid>,
    nodes: map<NodeName, NodeInfo>, req: Requests, conflictOk: Uid -> bool,
    n: NodeName, w: Worker, moved: set<Uid>, b: Place, rest: set<Uid>)
    requires Judged(p0, p, info, workers, unchecked, nodes, req, conflictOk)
    requires n in workers && moved <= AtNode(p, info, New, n)
    requires b == Failed || (b != New && moved !! unchecked)
    requires forall u :: u in unchecked && u !in rest ==> conflictOk(u) || (u in moved && b == Failed)
    requires b == Failed ==>
      forall u :: u in moved ==> Blamed(p0, Relocate(p, moved, b), info, nodes, req, conflictOk, n, u)
    requires !w.Leaving? && !w.Done? ==>
      !workers[n].Leaving? && !workers[n].Done? && forall u :: u in moved && u in info ==> info[u].task.victims == {}
    ensures Judged(p0, Relocate(p, moved, b), info, workers[n := w], rest, nodes, req, conflictOk)
  {
    hide Blamed, Vetted, Grounded;
    VettedStep(p0, p, info, unchecked, conflictOk, n, moved, b, rest);
    GroundedStep(p0, p, info, nodes, req, conflictOk, n, moved, b);
  }

  /** Nothing moves and nothing is checked off. */
  lemma JudgedStill(
    p0: Placement, p: Placement, info: Infos, workers: map<NodeName, Worker>, unchecked: set<Uid>,
    nodes: map<NodeName, NodeInfo>, req: Requests, conflictOk: Uid -> bool, n: NodeName, w: Worker)
    requires Judged(p0, p, info, workers, unchecked, nodes, req, conflictOk) && n in workers
    requires !w.Leaving? && !w.Done? ==> !workers[n].Leaving? && !workers[n].Done?
    ensures Judged(p0, p, info, workers[n := w], unchecked, nodes, req, conflictOk)
  {
    hide Vetted, Grounded;
  }

  lemma SameVictims(p0: Placement, p: Placement, info: Infos, workers: map<NodeName, Worker>, n: NodeName)
    requires PreemptorsStay(workers, p0, p, info) && SinceStart(p0, p)
    requires n in workers && !workers[n].Leaving? && !workers[n].Done?
    ensures Preempted(AtNode(p, info, New, n), info) == Preempted(AtNode(p0, info, New, n), info)
  {
    FewerNew(p0, p, info, n);
    forall v | v in Preempted(AtNode(p0, info, New, n), info)
      ensures v in Preempted(AtNode(p, info, New, n), info)
    {
      var u :| u in AtNode(p0, info, New, n) && v in info[u].task.victims;
      assert u in AtNode(p, info, New, n);
    }
  }

  /** A check that fails has a reason that does not depend on how far the workers are. */
  lemma FailsForAReason(
    c: NodeInfo, n: NodeName, p0: Placement, p: Placement, info: Infos, workers: map<NodeName, Worker>,
    unchecked: set<Uid>, nodes: map<NodeName, NodeInfo>, req: Requests, conflictOk: Uid -> bool, u: Uid)
    requires Judged(p0, p, info, workers, unchecked, nodes, req, conflictOk) && SinceStart(p0, p)
    requires n in workers && workers[n] == Checking(c) && CloneTracks(c, n, p, info, unchecked, nodes, req)
    requires u in AtNode(p, info, New, n) * unchecked && !(conflictOk(u) && c.requested + req(u) <= c.allocatable)
    ensures CheckFails(p0, info, nodes, req, conflictOk, n, u)
  {
    if conflictOk(u) {
      SameVictims(p0, p, info, workers, n);
      FewerNew(p0, p, info, n);
      hide Preempted, Grounded, PreemptorsStay, SinceStart;
      var passed := AtNode(p, info, New, n) - unchecked;
      assert c.pods == nodes[n].pods - Preempted(AtNode(p0, info, New, n), info) + passed;
      assert LeavesNoRoom(p0, info, nodes, req, conflictOk, n, passed, u);
    }
  }

  /** The check of one task, judged. */
  lemma JudgedCheck(
    c: NodeInfo, n: NodeName, p0: Placement, p: Placement, info: Infos, workers: map<NodeName, Worker>,
    unchecked: set<Uid>, nodes: map<NodeName, NodeInfo>, req: Requests, conflictOk: Uid -> bool,
    u: Uid, w: Worker, moved: set<Uid>)
    requires Judged(p0, p, info, workers, unchecked, nodes, req, conflictOk) && SinceStart(p0, p)
    requires n in workers && workers[n] == Checking(c) && WorkerOk(workers[n], n, p, info, unchecked, nodes, req)
    requires u in AtNode(p, info, New, n) * unchecked
    requires w.Checking? || w.Retesting? || w.Leaving?
    requires w.Checking? <==> conflictOk(u) && c.requested + req(u) <= c.allocatable
    requires w.Leaving? ==> info[u].task.victims != {}
    requires w.Retesting? ==> info[u].task.victims == {}
    requires moved == if w.Leaving? then AtNode(p, info, New, n) else if w.Retesting? then {u} else {}
    ensures Judged(p0, Relocate(p, moved, Failed), info, workers[n := w], unchecked - {u}, nodes, req, conflictOk)
  {
    hide Judged, CheckFails, CloneTracks;
    if !w.Checking? {
      FailsForAReason(c, n, p0, p, info, workers, unchecked, nodes, req, conflictOk, u);
      FewerNew(p0, p, info, n);
    }
    var p' := Relocate(p, moved, Failed);
    forall x | x in moved
      ensures Blamed(p0, p', info, nodes, req, conflictOk, n, x)
    {
      assert u in AtNode(p0, info, New, n) && p'[u] == Failed;
    }
    hide Blamed;
    JudgedStep(p0, p, info, workers, unchecked, nodes, req, conflictOk, n, w, moved, Failed, unchecked - {u});
  }

  /** All tasks of the node were checked, judged. */
  lemma JudgedFinish(
    p0: Placement, p: Placement, info: Infos, workers: map<NodeName, Worker>, unchecked: set<Uid>,
    nodes: map<NodeName, NodeInfo>, req: Requests, conflictOk: Uid -> bool, n: NodeName, b: Place)
    requires Judged(p0, p, info, workers, unchecked, nodes, req, conflictOk) && n in workers
    requires AtNode(p, info, New, n) * unchecked == {} && (b == Ready || b == Waiting)
    ensures Judged(p0, Relocate(p, AtNode(p, info, New, n), b), info, workers[n := Leaving], unchecked, nodes, req, conflictOk)
  {
    hide Judged, Blamed;
    var mine := AtNode(p, info, New, n);
    forall u | u in mine
      ensures u !in unchecked
    {
      assert u in unchecked ==> u in mine * unchecked;
    }
    JudgedStep(p0, p, info, workers, unchecked, nodes, req, conflictOk, n, Leaving, mine, b, unchecked);
  }

  /** A node that cannot be prepared, judged. */
  lemma JudgedStart(
    n: NodeName, p0: Placement, p: Placement, info: Infos, workers: map<NodeName, Worker>,
    unchecked: set<Uid>, nodes: map<NodeName, NodeInfo>, req: Requests, conflictOk: Uid -> bool, w: Worker)
    requires Judged(p0, p, info, workers, unchecked, nodes, req, conflictOk) && SinceStart(p0, p)
    requires n in workers && workers[n].Idle? && (w.Checking? || w.Leaving?)
    requires w.Checking? <==> n in nodes && Preempted(AtNode(p, info, New, n), info) <= nodes[n].pods
    ensures
      var moved := if w.Leaving? then AtNode(p, info, New, n) else {};
      Judged(p0, Relocate(p, moved, Failed), info, workers[n := w], unchecked, nodes, req, conflictOk)
  {
    hide Judged, CheckFails;
    FewerNew(p0, p, info, n);
    JudgedStep(p0, p, info, workers, unchecked, nodes, req, conflictOk, n, w,
               if w.Leaving? then AtNode(p, info, New, n) else {}, Failed, unchecked);
  }

  lemma StaysGenerous(
    p0: Placement, p: Placement, info: Infos, nodes: map<NodeName, NodeInfo>, req: Requests, conflictOk: Uid -> bool,
    n: NodeName, moved: set<Uid>, b: Place)
    requires Generous(p0, p, info, nodes, req, conflictOk) && SinceStart(p0, p)
    requires moved <= AtNode(p, info, New, n)
    requires b == Failed && moved != {} ==> !Roomy(p0, info, nodes, req, conflictOk, n)
    ensures Generous(p0, Relocate(p, moved, b), info, nodes, req, conflictOk)
  {
    hide Roomy;
  }

  lemma FewerNew(p0: Placement, p: Placement, info: Infos, n: NodeName)
    requires SinceStart(p0, p)
    ensures AtNode(p, info, New, n) <= AtNode(p0, info, New, n)
    ensures Preempted(AtNode(p, info, New, n), info) <= Preempted(AtNode(p0, info, New, n), info)
  {
    assert AtNode(p, info, New, n) <= AtNode(p0, info, New, n);
    forall v | v in Preempted(AtNode(p, info, New, n), info)
      ensures v in Preempted(AtNode(p0, info, New, n), info)
    {
      var u :| u in AtNode(p, info, New, n) && v in info[u].task.victims;
      assert u in AtNode(p0, info, New, n);
    }
  }

  /** On a node where all would fit, all of them are still there. */
  lemma AllStillNew(
    p0: Placement, p: Placement, info: Infos, nodes: map<NodeName, NodeInfo>, req: Requests, conflictOk: Uid -> bool,
    n: NodeName)
    requires Generous(p0, p, info, nodes, req, conflictOk) && SinceStart(p0, p)
    requires Admitted(p, info, n) == {} && Roomy(p0, info, nodes, req, conflictOk, n)
    ensures AtNode(p, info, New, n) == AtNode(p0, info, New, n)
  {
    hide Roomy;
    forall u | u in AtNode(p0, info, New, n)
      ensures u in AtNode(p, info, New, n)
    {
      assert u !in Admitted(p, info, n);
    }
  }

  /** The check of one task does not fail on a node where all would fit. */
  lemma CheckPasses(
    c: NodeInfo, n: NodeName, p0: Placement, p: Placement, info: Infos, unchecked: set<Uid>,
    nodes: map<NodeName, NodeInfo>, req: Requests, conflictOk: Uid -> bool, u: Uid)
    requires Generous(p0, p, info, nodes, req, conflictOk) && SinceStart(p0, p)
    requires WorkerOk(Checking(c), n, p, info, unchecked, nodes, req)
    requires u in AtNode(p, info, New, n) * unchecked && Roomy(p0, info, nodes, req, conflictOk, n)
    ensures conflictOk(u) && c.requested + req(u) <= c.allocatable
  {
    AllStillNew(p0, p, info, nodes, req, conflictOk, n);
    hide Generous, SinceStart, AtNode;
    var mine := AtNode(p, info, New, n);
    var all := nodes[n].pods - Preempted(mine, info) + mine;
    assert u !in c.pods;
    SumAdd(c.pods, u, x => req(x));
    assert c.pods + {u} <= all;
    SumMonotone(c.pods + {u}, all, x => req(x));
  }

  /** What holds of the unit and all workers between any two steps. */
  ghost predicate RunOk(
    unit: BindingUnitInfo, p0: Placement, p: Placement, info: Infos,
    workers: map<NodeName, Worker>, unchecked: set<Uid>, nodes: map<NodeName, NodeInfo>, req: Requests)
  {
    && SinceStart(p0, p)
    && AllWorkersOk(workers, p, info, unchecked, nodes, req)
    && (LeftNothing(workers, p, info) || Hopeless(unit, p))
  }

  lemma RunStep(
    unit: BindingUnitInfo, p0: Placement, p: Placement, info: Infos,
    workers: map<NodeName, Worker>, unchecked: set<Uid>, nodes: map<NodeName, NodeInfo>, req: Requests,
    n: NodeName, w: Worker, moved: set<Uid>, b: Place, unchecked': set<Uid>)
    requires RunOk(unit, p0, p, info, workers, unchecked, nodes, req)
    requires moved <= AtNode(p, info, New, n) && (b == Ready || b == Waiting || b == Failed)
    requires unchecked' <= unchecked && unchecked - unchecked' <= AtNode(p, info, New, n)
    requires WorkerOk(w, n, Relocate(p, moved, b), info, unchecked', nodes, req)
    requires w.Leaving? || w.Done? ==>
      AtNode(Relocate(p, moved, b), info, New, n) == {} || Hopeless(unit, Relocate(p, moved, b))
    ensures RunOk(unit, p0, Relocate(p, moved, b), info, workers[n := w], unchecked', nodes, req)
    ensures Hopeless(unit, p) ==> Hopeless(unit, Relocate(p, moved, b))
  {
    hide WorkerOk, AllWorkersOk, LeftNothing, Hopeless;
    AllStep(workers, p, info, unchecked, nodes, req, n, w, moved, b, unchecked');
    if Hopeless(unit, p) {
      HopelessStays(unit, p, info, n, moved, b);
    } else if !(Hopeless(unit, Relocate(p, moved, b))) {
      LeftNothingStep(workers, p, info, n, w, moved, b);
    }
  }

  lemma RelocateNothing(p: Placement, b: Place)
    ensures Relocate(p, {}, b) == p
  {
  }

  /** The next step of a worker that is checking tasks. */
  method TurnChecking(
    unit: BindingUnitInfo, cache: BinderCache, conflictOk: Uid -> bool, ghost p0: Placement,
    workers: map<NodeName, Worker>, unchecked: set<Uid>, n: NodeName)
    returns (w: Worker, rest: set<Uid>)
    requires unit.Valid()
    requires RunOk(unit, p0, unit.place, unit.info, workers, unchecked, cache.nodes, cache.request)
    requires n in workers && workers[n].Checking?
    requires Generous(p0, unit.place, unit.info, cache.nodes, cache.request, conflictOk)
    requires Judged(p0, unit.place, unit.info, workers, unchecked, cache.nodes, cache.request, conflictOk)
    modifies unit
    ensures unit.Valid() && unit.info == old(unit.info) && unit.place.Keys == old(unit.place).Keys
    ensures Judged(p0, unit.place, unit.info, workers[n := w], rest, cache.nodes, cache.request, conflictOk)
    ensures RunOk(unit, p0, unit.place, unit.info, workers[n := w], rest, cache.nodes, cache.request)
    ensures old(Hopeless(unit, unit.place)) ==> Hopeless(unit, unit.place)
    ensures !w.Idle? && !w.Done? && rest <= unchecked && (rest < unchecked || w.Leaving?)
    ensures Generous(p0, unit.place, unit.info, cache.nodes, cache.request, conflictOk)
  {
    hide Consistent, RunOk, WorkerOk, Hopeless, Generous, Roomy, SinceStart, Judged, Blamed, CheckFails;
    ghost var p, info := unit.place, unit.info;
    RunSince(unit, p0, p, info, workers, unchecked, cache.nodes, cache.request);
    PromiseOf(unit, p0, p, info, workers, unchecked, cache.nodes, cache.request, n);
    rest := unchecked;
    unit.BucketIs(n);
    var todo := Bucket(unit.newTasks, n).Keys * unchecked;
    ghost var moved, b;
    if todo == {} {
      FinishNode(unit, cache, n, workers[n].clone, unchecked);
      w := Leaving;
      moved := AtNode(p, info, New, n);
      b := if Preempted(moved, info) != {} then Waiting else Ready;
      JudgedFinish(p0, p, info, workers, unchecked, cache.nodes, cache.request, conflictOk, n, b);
    } else {
      var u :| u in todo;
      if Roomy(p0, info, cache.nodes, cache.request, conflictOk, n) {
        CheckPasses(workers[n].clone, n, p0, p, info, unchecked, cache.nodes, cache.request, conflictOk, u);
      }
      w := CheckTask(unit, cache, n, workers[n].clone, unchecked, u, conflictOk(u));
      rest := unchecked - {u};
      RelocateNothing(p, Failed);
      moved, b := if w.Leaving? then AtNode(p, info, New, n) else if w.Retesting? then {u} else {}, Failed;
      JudgedCheck(workers[n].clone, n, p0, p, info, workers, unchecked, cache.nodes, cache.request, conflictOk, u, w, moved);
    }
    RunStep(unit, p0, p, info, workers, unchecked, cache.nodes, cache.request, n, w, moved, b, rest);
    StaysGenerous(p0, p, info, cache.nodes, cache.request, conflictOk, n, moved, b);
  }

  lemma RunSince(
    unit: BindingUnitInfo, p0: Placement, p: Placement, info: Infos,
    workers: map<NodeName, Worker>, unchecked: set<Uid>, nodes: map<NodeName, NodeInfo>, req: Requests)
    requires RunOk(unit, p0, p, info, workers, unchecked, nodes, req)
    ensures SinceStart(p0, p)
  {
  }

  /** The next step of one worker. */
  method Turn(
    unit: BindingUnitInfo, cache: BinderCache, conflictOk: Uid -> bool, ghost p0: Placement,
    workers: map<NodeName, Worker>, unchecked: set<Uid>, n: NodeName)
    returns (w: Worker, rest: set<Uid>, cancel: bool)
    requires unit.Valid() && unit.Complete() && cache.Valid()
    requires RunOk(unit, p0, unit.place, unit.info, workers, unchecked, cache.nodes, cache.request)
    requires n in workers && !workers[n].Done?
    requires Generous(p0, unit.place, unit.info, cache.nodes, cache.request, conflictOk)
    requires Judged(p0, unit.place, unit.info, workers, unchecked, cache.nodes, cache.request, conflictOk)
    modifies unit
    ensures Judged(p0, unit.place, unit.info, workers[n := w], rest, cache.nodes, cache.request, conflictOk)
    ensures Generous(p0, unit.place, unit.info, cache.nodes, cache.request, conflictOk)
    ensures unit.Valid() && unit.Complete() && unit.info == old(unit.info)
    ensures RunOk(unit, p0, unit.place, unit.info, workers[n := w], rest, cache.nodes, cache.request)
    ensures old(Hopeless(unit, unit.place)) ==> Hopeless(unit, unit.place)
    ensures cancel ==> Hopeless(unit, unit.place)
    ensures w.Done? ==> (cancel <==> Hopeless(unit, unit.place))
    ensures workers[n].Retesting? ==> (w.Leaving? <==> Hopeless(unit, unit.place))
    ensures !w.Idle? && rest <= unchecked
    ensures match workers[n]
      case Idle => true
      case Checking(_) => rest < unchecked || w.Leaving?
      case Retesting(_) => w.Checking? || w.Leaving?
      case _ => w.Done?
  {
    hide Consistent, RunOk, WorkerOk, Hopeless, Generous, SinceStart, Judged;
    ghost var p, info := unit.place, unit.info;
    RunSince(unit, p0, p, info, workers, unchecked, cache.nodes, cache.request);
    PromiseOf(unit, p0, p, info, workers, unchecked, cache.nodes, cache.request, n);
    rest, cancel := unchecked, false;
    match workers[n]
    case Idle =>
      w := StartWorker(unit, cache, n, unchecked);
      RelocateNothing(p, Failed);
      ghost var moved := if w.Leaving? then AtNode(p, info, New, n) else {};
      RunStep(unit, p0, p, info, workers, unchecked, cache.nodes, cache.request, n, w, moved, Failed, rest);
      FewerNew(p0, p, info, n);
      StaysGenerous(p0, p, info, cache.nodes, cache.request, conflictOk, n, moved, Failed);
      JudgedStart(n, p0, p, info, workers, unchecked, cache.nodes, cache.request, conflictOk, w);
    case Checking(clone) =>
      w, rest := TurnChecking(unit, cache, conflictOk, p0, workers, unchecked, n);
    case Retesting(clone) =>
      var failed := unit.IsUnitFailed();
      w := if failed then Leaving else Checking(clone);
      RelocateNothing(p, Failed);
      RetestOk(unit, clone, w, n, p, info, unchecked, cache.nodes, cache.request);
      JudgedStill(p0, p, info, workers, unchecked, cache.nodes, cache.request, conflictOk, n, w);
      RunStep(unit, p0, p, info, workers, unchecked, cache.nodes, cache.request, n, w, {}, Failed, rest);
    case Leaving =>
      cancel := unit.IsUnitFailed();
      w := Done;
      RelocateNothing(p, Failed);
      LeaveOk(unit, p0, p, info, workers, unchecked, cache.nodes, cache.request, n);
      JudgedStill(p0, p, info, workers, unchecked, cache.nodes, cache.request, conflictOk, n, w);
      RunStep(unit, p0, p, info, workers, unchecked, cache.nodes, cache.request, n, w, {}, Failed, rest);
  }

  lemma PromiseOf(
    unit: BindingUnitInfo, p0: Placement, p: Placement, info: Infos,
    workers: map<NodeName, Worker>, unchecked: set<Uid>, nodes: map<NodeName, NodeInfo>, req: Requests, n: NodeName)
    requires RunOk(unit, p0, p, info, workers, unchecked, nodes, req) && n in workers
    ensures WorkerOk(workers[n], n, p, info, unchecked, nodes, req)
  {
    hide WorkerOk, LeftNothing, Hopeless;
  }

  lemma RetestOk(
    unit: BindingUnitInfo, clone: NodeInfo, w: Worker, n: NodeName, p: Placement, info: Infos,
    unchecked: set<Uid>, nodes: map<NodeName, NodeInfo>, req: Requests)
    requires WorkerOk(Retesting(clone), n, p, info, unchecked, nodes, req)
    requires w == Leaving || w == Checking(clone)
    ensures WorkerOk(w, n, p, info, unchecked, nodes, req)
  {
    hide CloneTracks;
  }

  lemma LeaveOk(
    unit: BindingUnitInfo, p0: Placement, p: Placement, info: Infos,
    workers: map<NodeName, Worker>, unchecked: set<Uid>, nodes: map<NodeName, NodeInfo>, req: Requests, n: NodeName)
    requires RunOk(unit, p0, p, info, workers, unchecked, nodes, req) && n in workers && workers[n].Leaving?
    ensures WorkerOk(Done, n, p, info, unchecked, nodes, req)
    ensures AtNode(p, info, New, n) == {} || Hopeless(unit, p)
  {
    hide AdmissionSound, Hopeless;
  }

  /**
   The whole check. Each turn of the loop lets any one worker take its next step; workers
   that have not started are skipped once the run is cancelled, which a worker does when it
   leaves a failed unit and which the caller's context may do at any time if `mayCancel`.
  */
  method CheckSameNodeConflictsForUnit(
    unit: BindingUnitInfo, cache: BinderCache, conflictOk: Uid -> bool, mayCancel: bool)
    returns (cancelled: bool)
    requires unit.Valid() && unit.Complete() && cache.Valid()
    requires forall n :: Admitted(unit.place, unit.info, n) == {}
    modifies unit
    ensures unit.Valid() && unit.Complete() && unit.info == old(unit.info)
    ensures SinceStart(old(unit.place), unit.place)
    ensures forall n :: AdmissionSound(unit.place, unit.info, cache.nodes, cache.request, n)
    ensures !mayCancel ==> unit.Doomed() || At(unit.place, New) == {}
    ensures !mayCancel && At(old(unit.place), New) != {} ==> (cancelled <==> unit.Doomed())
    ensures Generous(old(unit.place), unit.place, unit.info, cache.nodes, cache.request, conflictOk)
    ensures Grounded(old(unit.place), unit.place, unit.info, cache.nodes, cache.request, conflictOk)
    ensures forall u | u in unit.place && old(unit.place)[u] == New ::
      unit.place[u] == Ready || unit.place[u] == Waiting ==> conflictOk(u)
  {
    hide Judged, Grounded, Consistent, RunOk, Hopeless, Generous, IdleOnes, RetestingOnes, CheckingOnes, LeavingOnes,
         AdmissionSound;
    ghost var p0 := unit.place;
    var workers := map n | n in unit.newTasks.nodes :: Idle;
    var unchecked := unit.AllNewUids();
    unit.KnownInfo();
    unit.BucketsCover();
    RunStarts(unit, cache, workers, unchecked);
    StartsGenerous(unit, cache, conflictOk);
    JudgedAtFirst(unit, cache, workers, unchecked, conflictOk);
    cancelled := false;
    var live := workers.Keys;
    while live != {}
      invariant unit.Valid() && unit.Complete() && unit.info == old(unit.info)
      invariant RunOk(unit, p0, unit.place, unit.info, workers, unchecked, cache.nodes, cache.request)
      invariant Generous(p0, unit.place, unit.info, cache.nodes, cache.request, conflictOk)
      invariant Judged(p0, unit.place, unit.info, workers, unchecked, cache.nodes, cache.request, conflictOk)
      invariant workers.Keys == old(unit.newTasks.nodes)
      invariant live == set n | n in workers && !workers[n].Done? && !(workers[n].Idle? && cancelled)
      invariant cancelled && !mayCancel ==> Hopeless(unit, unit.place)
      invariant live == {} && workers.Keys != {} && !cancelled ==> !Hopeless(unit, unit.place)
      decreases |IdleOnes(workers)|, |unchecked|, |RetestingOnes(workers)|, |CheckingOnes(workers)|, |LeavingOnes(workers)|
    {
      var n :| n in live;
      var w, rest, cancel := Turn(unit, cache, conflictOk, p0, workers, unchecked, n);
      TurnShrinks(workers, n, w, unchecked, rest);
      workers, unchecked := workers[n := w], rest;
      var interrupted: bool := *;
      if cancel || (mayCancel && interrupted) {
        cancelled := true;
      }
      live := set m | m in workers && !workers[m].Done? && !(workers[m].Idle? && cancelled);
    }
    assert forall n :: n in workers && n !in live ==> workers[n].Done? || (workers[n].Idle? && cancelled);
    RunEnds(unit, p0, unit.place, unit.info, workers, unchecked, cache.nodes, cache.request, cancelled);
    JudgedInTheEnd(p0, unit.place, unit.info, workers, unchecked, cache.nodes, cache.request, conflictOk);
  }

  lemma JudgedAtFirst(
    unit: BindingUnitInfo, cache: BinderCache, workers: map<NodeName, Worker>, unchecked: set<Uid>, conflictOk: Uid -> bool)
    requires unit.Valid() && unchecked == unit.AllNewUids()
    ensures Judged(unit.place, unit.place, unit.info, workers, unchecked, cache.nodes, cache.request, conflictOk)
  {
    hide Consistent, Blamed;
    unit.AllNewUidsAre();
  }

  lemma JudgedInTheEnd(
    p0: Placement, p: Placement, info: Infos, workers: map<NodeName, Worker>, unchecked: set<Uid>,
    nodes: map<NodeName, NodeInfo>, req: Requests, conflictOk: Uid -> bool)
    requires Judged(p0, p, info, workers, unchecked, nodes, req, conflictOk) && p.Keys == p0.Keys
    ensures Grounded(p0, p, info, nodes, req, conflictOk)
    ensures forall u :: u in p && p0[u] == New && (p[u] == Ready || p[u] == Waiting) ==> conflictOk(u)
  {
    hide Grounded;
  }

  lemma StartsGenerous(unit: BindingUnitInfo, cache: BinderCache, conflictOk: Uid -> bool)
    requires unit.Valid()
    ensures Generous(unit.place, unit.place, unit.info, cache.nodes, cache.request, conflictOk)
  {
    hide Consistent, Roomy;
    unit.KnownInfo();
  }

  lemma RunStarts(unit: BindingUnitInfo, cache: BinderCache, workers: map<NodeName, Worker>, unchecked: set<Uid>)
    requires unit.Valid()
    requires workers == map n | n in unit.newTasks.nodes :: Idle
    requires unchecked == unit.AllNewUids()
    requires forall n :: Admitted(unit.place, unit.info, n) == {}
    ensures RunOk(unit, unit.place, unit.place, unit.info, workers, unchecked, cache.nodes, cache.request)
  {
    hide Consistent, Hopeless;
    unit.AllNewUidsAre();
    forall n | n in workers
      ensures WorkerOk(workers[n], n, unit.place, unit.info, unchecked, cache.nodes, cache.request)
    {
      assert Admitted(unit.place, unit.info, n) == {};
    }
  }

  lemma RunEnds(
    unit: BindingUnitInfo, p0: Placement, p: Placement, info: Infos,
    workers: map<NodeName, Worker>, unchecked: set<Uid>, nodes: map<NodeName, NodeInfo>, req: Requests,
    cancelled: bool)
    requires RunOk(unit, p0, p, info, workers, unchecked, nodes, req)
    requires p0.Keys == info.Keys
    requires forall u :: u in p0 && p0[u] == New ==> info[u].task.node in workers
    requires forall n :: Admitted(p0, info, n) == {}
    requires forall n :: n in workers ==> workers[n].Done? || (workers[n].Idle? && cancelled)
    ensures SinceStart(p0, p)
    ensures forall n :: AdmissionSound(p, info, nodes, req, n)
    ensures !cancelled ==> Hopeless(unit, p) || At(p, New) == {}
  {
    hide Hopeless;
    forall n
      ensures AdmissionSound(p, info, nodes, req, n)
    {
      assert Admitted(p0, info, n) == {};
      if n in workers {
        PromiseOf(unit, p0, p, info, workers, unchecked, nodes, req, n);
      } else {
        forall u | u in Admitted(p, info, n)
          ensures u in Admitted(p0, info, n)
        {
        }
        assert Admitted(p, info, n) == {};
      }
    }
    assert forall u :: u in At(p, New) ==> u in AtNode(p, info, New, info[u].task.node);
    assert forall u :: u in At(p, New) ==> info[u].task.node in workers;
  }
}
