/**
 The cache over whole runs, with many units.

 The main loop admits one unit at a time; earlier units delete victims, roll back, are bound,
 confirmed and forgotten at any moment in between. In every reachable state the pods of a node
 that are neither marked as victims nor being rolled back fit the node, except for strangers:
 pods that came into the cache unchecked. A pod becomes one only if it was forgotten although
 its binding had been accepted, or if it was bound by somebody else. No preemptor ever takes
 over a mark of another one.
*/
module Capacity {

  import opened BinderTypes
  import opened TaskIndex
  import opened SetSum
  import opened Caches
  import UnitLists
  import Placements
  import SameNode

  type Group = map<Uid, Task>

  datatype Main =
    | Resting
    | Picked(plan: Group)
    | Checked(plan: Group)
    | Assuming

  /**
   `groups` are the admissions so far, oldest first; a pod born in admission `i` (counted from
   one) entered the cache through it, pods born at zero were there at the start. A pair in
   `dead` is an admission that failed on a node after its victims were marked; `pending` are
   the tasks of such admissions that have not been rejected yet. The attempt of a group in
   `settled` is over. The pods in `gone` were deleted; their identifiers never come back. The
   API server has accepted the bindings in `accepted` and has not told the cache yet. The
   `strangers` are in the cache although no admission put them on their node.
  */
  datatype State = State(
    pods: map<Uid, PodState>,
    born: map<Uid, nat>,
    markers: map<Uid, Uid>,
    groups: seq<Group>,
    dead: set<(nat, NodeName)>,
    pending: map<Uid, nat>,
    settled: set<nat>,
    gone: set<Uid>,
    accepted: map<Uid, NodeName>,
    strangers: set<Uid>,
    main: Main)

  datatype Cluster = Cluster(allocatable: NodeName -> int, request: Requests)

  // ---- derived notions

  ghost function PodsOn(s: State, n: NodeName): set<Uid> {
    set u | u in s.pods && s.pods[u].node == n
  }

  /** The pods of a node that were there once admission `i` had happened. */
  ghost function Elders(s: State, i: nat, n: NodeName): set<Uid> {
    set u | u in s.pods && s.pods[u].node == n && u in s.born && s.born[u] <= i && u !in s.strangers
  }

  ghost predicate IsGroup(s: State, i: nat) {
    1 <= i <= |s.groups|
  }

  ghost function GroupOf(s: State, i: nat): Group {
    if IsGroup(s, i) then s.groups[i - 1] else map[]
  }

  ghost predicate Live(s: State, i: nat, n: NodeName) {
    IsGroup(s, i) && UidsOn(GroupOf(s, i), n) != {} && (i, n) !in s.dead
  }

  /** A pod that is on its way out because its admission failed. */
  ghost predicate Dying(s: State, u: Uid) {
    u in s.pods && u in s.born && s.born[u] > 0 && (s.born[u], s.pods[u].node) in s.dead
  }

  /** What counts against a node: everything but marked victims and pods on their way out. */
  ghost function Counted(s: State, n: NodeName): set<Uid> {
    set u | u in PodsOn(s, n) && u !in s.markers && !Dying(s, u)
  }

  ghost predicate Fits(c: Cluster, pods: set<Uid>, n: NodeName) {
    Total(pods, c.request) <= c.allocatable(n)
  }

  ghost function PlanOf(m: Main): Group {
    match m
    case Picked(plan) => plan
    case Checked(plan) => plan
    case _ => map[]
  }

  // ---- steps

  datatype Step =
    | Pick(plan: Group)
    | Check(keep: set<Uid>)
    | Mark(u: Uid, v: Uid)
    | Unmark(u: Uid, v: Uid)
    | DropNode(n: NodeName)
    | Abandon
    | Commit
    | Assume(u: Uid)
    | Finish
    | Forget(u: Uid)
    | FailNode(i: nat, n: NodeName)
    | Release(u: Uid, v: Uid)
    | Rejected(u: Uid)
    | Settle(i: nat)
    | Accept(u: Uid)
    | Confirm(u: Uid)
    | Arrive(u: Uid, n: NodeName)
    | Delete(v: Uid)

  ghost predicate OwnMarksGone(markers: map<Uid, Uid>, t: Task) {
    forall v :: v in t.victims && v in markers ==> markers[v] != t.uid
  }

  /**
   When a step can happen. A pod is in one running attempt at a time, so a plan holds no task
   of a group whose attempt is not over. The API server may accept the binding of any assumed
   pod, whether or not the binder gets to know.
  */
  ghost predicate Enabled(c: Cluster, s: State, step: Step) {
    match step
    case Pick(plan) =>
      && s.main == Resting
      && DisjointVictims(plan)
      && (forall u :: u in plan ==> plan[u].uid == u)
      && VictimsOf(plan) !! s.markers.Keys
      && (forall i :: IsGroup(s, i) && i !in s.settled ==> plan.Keys !! GroupOf(s, i).Keys)
    case Check(keep) =>
      && s.main.Picked?
      && keep <= s.main.plan.Keys
      && (var kept := s.main.plan - (s.main.plan.Keys - keep);
          forall n :: UidsOn(kept, n) != {} ==>
            Fits(c, PodsOn(s, n) - VictimsOn(kept, n) + UidsOn(kept, n), n))
    case Mark(u, v) =>
      && s.main.Checked? && u in s.main.plan && v in s.main.plan[u].victims
      && v in s.pods && !s.pods[v].assumed
    case Unmark(u, v) =>
      s.main.Checked? && u in s.main.plan && v in s.main.plan[u].victims
    case DropNode(n) =>
      && s.main.Checked?
      && (forall u :: u in UidsOn(s.main.plan, n) ==> OwnMarksGone(s.markers, s.main.plan[u]))
    case Abandon =>
      && (s.main.Picked? || s.main.Checked?)
      && (forall u :: u in PlanOf(s.main) ==> OwnMarksGone(s.markers, PlanOf(s.main)[u]))
    case Commit =>
      && s.main.Checked?
      && (forall u, v :: u in s.main.plan && v in s.main.plan[u].victims && v !in s.gone ==>
            v in s.markers && s.markers[v] == u)
    case Assume(u) =>
      && s.main == Assuming && u in GroupOf(s, |s.groups|) && u !in s.pods && u !in s.gone
      && (|s.groups|, GroupOf(s, |s.groups|)[u].node) !in s.dead
    case Finish =>
      s.main == Assuming
    case Forget(u) =>
      u in s.pods && s.pods[u].assumed
    case FailNode(i, n) =>
      Live(s, i, n) && i !in s.settled && VictimsOn(GroupOf(s, i), n) != {}
    case Release(u, v) =>
      u in s.pending && u in GroupOf(s, s.pending[u]) && v in GroupOf(s, s.pending[u])[u].victims
    case Rejected(u) =>
      && u in s.pending && u in GroupOf(s, s.pending[u]) && u !in s.pods
      && OwnMarksGone(s.markers, GroupOf(s, s.pending[u])[u])
    case Settle(i) =>
      IsGroup(s, i) && !(s.main == Assuming && i == |s.groups|) && (forall u :: u in s.pending ==> s.pending[u] != i)
    case Accept(u) =>
      u in s.pods && s.pods[u].assumed
    case Confirm(u) =>
      u in s.accepted
    case Arrive(u, n) =>
      u !in s.pods && u !in s.gone && u !in s.accepted
    case Delete(v) =>
      v in s.pods || v in s.accepted
  }

  /** The cache still has the pod on the node its binding was accepted for. */
  ghost predicate AcceptedHere(s: State, u: Uid) {
    u in s.pods && u in s.accepted && s.pods[u].node == s.accepted[u]
  }

  /** Removes a mark, but only the one `u` set. */
  ghost function Without(markers: map<Uid, Uid>, u: Uid, v: Uid): map<Uid, Uid> {
    if v in markers && markers[v] == u then markers - {v} else markers
  }

  /** What a step does. */
  ghost function Apply(s: State, step: Step): State {
    match step
    case Pick(plan) => s.(main := Picked(plan))
    case Check(keep) => s.(main := Checked(PlanOf(s.main) - (PlanOf(s.main).Keys - keep)))
    case Mark(u, v) => s.(markers := s.markers[v := u])
    case Unmark(u, v) => s.(markers := Without(s.markers, u, v))
    case DropNode(n) => s.(main := Checked(PlanOf(s.main) - UidsOn(PlanOf(s.main), n)))
    case Abandon => s.(main := Resting)
    case Commit => s.(main := Assuming, groups := s.groups + [PlanOf(s.main)])
    case Assume(u) =>
      var g := GroupOf(s, |s.groups|);
      if u !in g then s else
        s.(pods := s.pods[u := PodState(g[u].node, true)], born := s.born[u := |s.groups|])
    case Finish => s.(main := Resting)
    case Forget(u) => s.(pods := s.pods - {u}, born := s.born - {u}, strangers := s.strangers - {u})
    case FailNode(i, n) =>
      s.(dead := s.dead + {(i, n)},
         pending := s.pending + map u | u in UidsOn(GroupOf(s, i), n) :: i)
    case Release(u, v) => s.(markers := Without(s.markers, u, v))
    case Rejected(u) => s.(pending := s.pending - {u})
    case Settle(i) => s.(settled := s.settled + {i})
    case Accept(u) => if u in s.pods then s.(accepted := s.accepted[u := s.pods[u].node]) else s
    case Confirm(u) =>
      if u !in s.accepted then s
      else if AcceptedHere(s, u) then
        s.(pods := s.pods[u := s.pods[u].(assumed := false)], accepted := s.accepted - {u})
      else
        s.(pods := s.pods[u := PodState(s.accepted[u], false)], born := s.born[u := 0],
           accepted := s.accepted - {u}, strangers := s.strangers + {u})
    case Arrive(u, n) =>
      s.(pods := s.pods[u := PodState(n, false)], born := s.born[u := 0], strangers := s.strangers + {u})
    case Delete(v) =>
      s.(pods := s.pods - {v}, born := s.born - {v}, markers := s.markers - {v}, gone := s.gone + {v},
         accepted := s.accepted - {v}, strangers := s.strangers - {v})
  }

  // ---- the invariant

  ghost predicate BornOk(s: State) {
    && s.born.Keys == s.pods.Keys
    && (forall u :: u in s.pods ==> s.born[u] <= |s.groups|)
    && (forall u :: u in s.pods && s.born[u] > 0 ==>
          u in GroupOf(s, s.born[u]) && GroupOf(s, s.born[u])[u].node == s.pods[u].node)
    && (forall u :: u in s.strangers ==> u in s.pods && s.born[u] == 0)
  }

  /** The certificate of an admission: what was there then, without its victims, fits with it. */
  ghost predicate Cert(c: Cluster, s: State, i: nat, n: NodeName) {
    var g := GroupOf(s, i);
    Fits(c, Elders(s, i, n) - VictimsOn(g, n) + UidsOn(g, n), n)
  }

  ghost predicate CertsOk(c: Cluster, s: State) {
    && (forall n :: Fits(c, Elders(s, 0, n), n))
    && (forall i, n :: IsGroup(s, i) && UidsOn(GroupOf(s, i), n) != {} ==> Cert(c, s, i, n))
  }

  /** Marks are on pods that exist and are confirmed; what is gone stays gone. */
  ghost predicate MarksOk(s: State) {
    && (forall v :: v in s.markers ==> v in s.pods && !s.pods[v].assumed)
    && s.gone !! s.pods.Keys && s.gone !! s.accepted.Keys
  }

  /** The victims of a live admission that are not gone are marked by it. */
  ghost predicate LiveMarked(s: State) {
    forall i, n, v :: Live(s, i, n) && v in VictimsOn(GroupOf(s, i), n) && v !in s.gone ==>
      && v in s.markers
      && s.markers[v] in GroupOf(s, i)
      && v in GroupOf(s, i)[s.markers[v]].victims
  }

  ghost predicate GroupsOk(s: State) {
    forall i :: IsGroup(s, i) ==>
      DisjointVictims(GroupOf(s, i)) && (forall u :: u in GroupOf(s, i) ==> GroupOf(s, i)[u].uid == u)
  }

  /** A pod of an attempt that is not over is in no later admission. */
  ghost predicate OneAttempt(s: State) {
    && (forall i, k :: IsGroup(s, i) && IsGroup(s, k) && i < k && i !in s.settled ==>
          GroupOf(s, i).Keys !! GroupOf(s, k).Keys)
    && (forall i :: IsGroup(s, i) && i !in s.settled ==> GroupOf(s, i).Keys !! PlanOf(s.main).Keys)
  }

  ghost predicate PendingOk(s: State) {
    forall u :: u in s.pending ==>
      && IsGroup(s, s.pending[u]) && s.pending[u] !in s.settled
      && u in GroupOf(s, s.pending[u])
      && (s.pending[u], GroupOf(s, s.pending[u])[u].node) in s.dead
  }

  /** Only tasks that wait to be rejected are on their way out. */
  ghost predicate DyingPending(s: State) {
    forall u :: Dying(s, u) ==> u in s.pending && s.pending[u] == s.born[u]
  }

  /** A victim that a live admission waits for is nobody else's later victim. */
  ghost predicate NotTakenOver(s: State) {
    forall i, n, v :: Live(s, i, n) && v in VictimsOn(GroupOf(s, i), n) && v !in s.gone ==>
      && v !in VictimsOf(PlanOf(s.main))
      && (forall k :: IsGroup(s, k) && k > i ==> v !in VictimsOf(GroupOf(s, k)))
  }

  ghost predicate PlanOk(c: Cluster, s: State) {
    var plan := PlanOf(s.main);
    && DisjointVictims(plan)
    && (forall u :: u in plan ==> plan[u].uid == u)
    && (forall v :: v in VictimsOf(plan) && v in s.markers ==>
          s.markers[v] in plan && v in plan[s.markers[v]].victims)
    && (s.main.Checked? ==>
          forall n :: UidsOn(plan, n) != {} ==>
            Fits(c, PodsOn(s, n) - s.strangers - VictimsOn(plan, n) + UidsOn(plan, n), n))
  }

  ghost predicate Inv(c: Cluster, s: State) {
    && BornOk(s) && CertsOk(c, s) && MarksOk(s) && LiveMarked(s) && GroupsOk(s)
    && OneAttempt(s) && PendingOk(s) && DyingPending(s) && NotTakenOver(s) && PlanOk(c, s)
  }

  /** A cache with nothing but old pods that fit, and no marks. */
  ghost predicate Init(c: Cluster, s: State) {
    && s.groups == [] && s.dead == {} && s.pending == map[] && s.settled == {} && s.gone == {} && s.markers == map[]
    && s.accepted == map[] && s.strangers == {}
    && s.main == Resting
    && s.born == (map u | u in s.pods :: 0)
    && (forall n :: Fits(c, PodsOn(s, n), n))
  }

  // ---- safety in every state that satisfies the invariant

  /** The youngest admission that is live on a node, or zero. */
  ghost function Youngest(s: State, n: NodeName, i: nat): (j: nat)
    ensures j <= i
    ensures j > 0 ==> Live(s, j, n)
    ensures forall k :: j < k <= i ==> !Live(s, k, n)
  {
    if i == 0 then 0 else if Live(s, i, n) then i else Youngest(s, n, i - 1)
  }

  lemma CountedIsCertified(c: Cluster, s: State, n: NodeName, u: Uid)
    requires Inv(c, s) && u in Counted(s, n) - s.strangers
    ensures
      var j := Youngest(s, n, |s.groups|);
      u in Elders(s, j, n) && (j > 0 ==> u !in VictimsOn(GroupOf(s, j), n))
  {
    hide OneAttempt, PendingOk, DyingPending, NotTakenOver, PlanOk, CertsOk, GroupsOk;
    var j := Youngest(s, n, |s.groups|);
    var i := s.born[u];
    assert i > 0 ==> u in UidsOn(GroupOf(s, i), n);
    assert i > j ==> !Live(s, i, n);
  }

  /** In every state that satisfies the invariant, what counts against a node fits it, strangers aside. */
  lemma NodeNeverOverfull(c: Cluster, s: State, n: NodeName)
    requires Inv(c, s)
    ensures Total(Counted(s, n) - s.strangers, c.request) <= c.allocatable(n)
  {
    hide OneAttempt, PendingOk, DyingPending, NotTakenOver, PlanOk, LiveMarked;
    var j := Youngest(s, n, |s.groups|);
    var g := GroupOf(s, j);
    var bound := if j == 0 then Elders(s, 0, n) else Elders(s, j, n) - VictimsOn(g, n) + UidsOn(g, n);
    forall u | u in Counted(s, n) - s.strangers
      ensures u in bound
    {
      CountedIsCertified(c, s, n, u);
    }
    SumMonotone(Counted(s, n) - s.strangers, bound, u => c.request(u));
  }

  // ---- every step keeps the invariant

  lemma GroupsStay(s: State, step: Step, i: nat)
    requires IsGroup(s, i)
    ensures IsGroup(Apply(s, step), i) && GroupOf(Apply(s, step), i) == GroupOf(s, i)
  {
  }

  ghost predicate TouchesPods(step: Step) {
    step.Assume? || step.Forget? || step.Confirm? || step.Arrive? || step.Delete?
  }

  lemma PodsUntouched(s: State, step: Step)
    requires !TouchesPods(step)
    ensures
      var s' := Apply(s, step);
      s'.pods == s.pods && s'.born == s.born && s'.strangers == s.strangers
  {
    hide GroupOf, PlanOf, UidsOn, Without;
  }

  /** Where a pod of the new state comes from: it was there, is assumed, or comes as a stranger. */
  ghost predicate Explained(s: State, s': State, step: Step, u: Uid) {
    && u in s'.pods && u in s'.born
    && (|| (u in s.pods && u in s.born && s'.pods[u].node == s.pods[u].node && s'.born[u] == s.born[u] &&
            (u in s.strangers ==> u in s'.strangers))
        || (step == Assume(u) && u in GroupOf(s, |s.groups|) && s'.born[u] == |s.groups| &&
            s'.pods[u].node == GroupOf(s, |s.groups|)[u].node)
        || (u in s'.strangers && s'.born[u] == 0))
  }

  lemma PodTouched(s: State, step: Step, u: Uid)
    requires TouchesPods(step) && u in Apply(s, step).pods && (u in s.pods ==> u in s.born)
    ensures Explained(s, Apply(s, step), step, u)
  {
    hide GroupOf, PlanOf, UidsOn, Without;
  }

  lemma PodFrame(s: State, step: Step, u: Uid)
    requires s.born.Keys == s.pods.Keys && u in Apply(s, step).pods
    ensures Explained(s, Apply(s, step), step, u)
  {
    hide Apply, TouchesPods, GroupOf;
    if TouchesPods(step) {
      PodTouched(s, step, u);
    } else {
      PodsUntouched(s, step);
    }
  }

  /** Admissions, failures and the ends of attempts are for good. */
  lemma GroupsFrame(s: State, step: Step)
    ensures
      var s' := Apply(s, step);
      && s'.groups == (if step.Commit? then s.groups + [PlanOf(s.main)] else s.groups)
      && s.settled <= s'.settled && s.dead <= s'.dead && (!step.FailNode? ==> s'.dead == s.dead)
  {
    hide GroupOf;
  }

  lemma BornStays(s: State, step: Step, u: Uid)
    requires BornOk(s) && u in Apply(s, step).pods
    ensures u in Apply(s, step).born && Apply(s, step).born[u] <= |Apply(s, step).groups|
    ensures
      var s' := Apply(s, step);
      s'.born[u] > 0 ==> u in GroupOf(s', s'.born[u]) && GroupOf(s', s'.born[u])[u].node == s'.pods[u].node
  {
    hide Apply;
    PodFrame(s, step, u);
    GroupsFrame(s, step);
    if Apply(s, step).born[u] > 0 && IsGroup(s, Apply(s, step).born[u]) {
      GroupsStay(s, step, Apply(s, step).born[u]);
    }
  }

  lemma AssumesNewPods(c: Cluster, s: State, step: Step)
    requires Enabled(c, s, step)
    ensures step.Assume? ==>
      && step.u !in s.pods && s.main == Assuming && step.u in GroupOf(s, |s.groups|)
      && (|s.groups|, GroupOf(s, |s.groups|)[step.u].node) !in s.dead
  {
  }

  lemma StrangerStays(s: State, step: Step, u: Uid)
    requires u in s.strangers ==> u in s.pods && u in s.born && s.born[u] == 0
    requires u in Apply(s, step).strangers && (step.Assume? ==> step.u !in s.pods)
    ensures u in Apply(s, step).pods && u in Apply(s, step).born && Apply(s, step).born[u] == 0
  {
    hide GroupOf;
  }

  lemma BornTogether(s: State, step: Step)
    requires s.born.Keys == s.pods.Keys
    ensures Apply(s, step).born.Keys == Apply(s, step).pods.Keys
  {
    hide GroupOf;
  }

  lemma BornKept(c: Cluster, s: State, step: Step)
    requires BornOk(s) && Enabled(c, s, step)
    ensures BornOk(Apply(s, step))
  {
    hide Enabled, GroupOf, Apply;
    var s' := Apply(s, step);
    BornTogether(s, step);
    AssumesNewPods(c, s, step);
    forall u | u in s'.strangers
      ensures u in s'.pods && u in s'.born && s'.born[u] == 0
    {
      StrangerStays(s, step, u);
    }
    forall u | u in s'.pods
      ensures u in s'.born && s'.born[u] <= |s'.groups|
      ensures s'.born[u] > 0 ==> u in GroupOf(s', s'.born[u]) && GroupOf(s', s'.born[u])[u].node == s'.pods[u].node
    {
      BornStays(s, step, u);
    }
  }

  lemma GroupsKept(c: Cluster, s: State, step: Step)
    requires GroupsOk(s) && PlanOk(c, s) && Enabled(c, s, step)
    ensures GroupsOk(Apply(s, step))
  {
    var s' := Apply(s, step);
    forall i | IsGroup(s', i)
      ensures DisjointVictims(GroupOf(s', i)) && (forall u :: u in GroupOf(s', i) ==> GroupOf(s', i)[u].uid == u)
    {
      if IsGroup(s, i) {
        GroupsStay(s, step, i);
      }
    }
  }

  /** A plan is picked, and shrinks from then on. */
  lemma PlanFrame(c: Cluster, s: State, step: Step)
    requires Enabled(c, s, step)
    ensures
      var plan, plan' := PlanOf(s.main), PlanOf(Apply(s, step).main);
      if step.Pick? then plan' == step.plan
      else if step.Commit? then plan' == map[]
      else forall u :: u in plan' ==> u in plan && plan'[u] == plan[u]
  {
    hide GroupOf;
  }

  lemma PicksFreeTasks(c: Cluster, s: State, step: Step, i: nat)
    requires Enabled(c, s, step) && step.Pick? && IsGroup(s, i) && i !in s.settled
    ensures step.plan.Keys !! GroupOf(s, i).Keys
  {
  }

  lemma OneAttemptKept(c: Cluster, s: State, step: Step)
    requires OneAttempt(s) && Enabled(c, s, step)
    ensures OneAttempt(Apply(s, step))
  {
    hide Enabled, Apply, PlanOf;
    var s' := Apply(s, step);
    GroupsFrame(s, step);
    PlanFrame(c, s, step);
    forall i | IsGroup(s', i) && i !in s'.settled
      ensures GroupOf(s', i).Keys !! PlanOf(s'.main).Keys
    {
      if step.Pick? {
        PicksFreeTasks(c, s, step, i);
      }
    }
    assert forall i :: IsGroup(s, i) ==> GroupOf(s', i) == GroupOf(s, i);
    assert step.Commit? ==> GroupOf(s', |s.groups| + 1) == PlanOf(s.main);
  }

  lemma PendingFrame(c: Cluster, s: State, step: Step, u: Uid)
    requires Enabled(c, s, step) && u in Apply(s, step).pending
    requires u in s.pending ==> s.pending[u] !in s.settled
    ensures
      var s' := Apply(s, step);
      && s'.pending[u] !in s'.settled
      && (|| (u in s.pending && s'.pending[u] == s.pending[u])
          || (step.FailNode? && s'.pending[u] == step.i && IsGroup(s, step.i) && (step.i, step.n) in s'.dead
              && u in GroupOf(s, step.i) && GroupOf(s, step.i)[u].node == step.n))
  {
    hide GroupOf;
  }

  lemma PendingKept(c: Cluster, s: State, step: Step)
    requires PendingOk(s) && Enabled(c, s, step)
    ensures PendingOk(Apply(s, step))
  {
    hide Enabled, Apply;
    var s' := Apply(s, step);
    GroupsFrame(s, step);
    forall u | u in s'.pending
      ensures
        && IsGroup(s', s'.pending[u]) && s'.pending[u] !in s'.settled
        && u in GroupOf(s', s'.pending[u])
        && (s'.pending[u], GroupOf(s', s'.pending[u])[u].node) in s'.dead
    {
      PendingFrame(c, s, step, u);
      GroupsStay(s, step, s'.pending[u]);
    }
  }

  /** Apart from the failure of a node, no step sends a pod on its way out. */
  lemma DyingBefore(c: Cluster, s: State, step: Step, u: Uid)
    requires BornOk(s) && Enabled(c, s, step) && !step.FailNode? && Dying(Apply(s, step), u)
    ensures Dying(s, u) && Apply(s, step).born[u] == s.born[u] && u in s.pods
  {
    hide Enabled, Apply, GroupOf;
    PodFrame(s, step, u);
    GroupsFrame(s, step);
    AssumesNewPods(c, s, step);
  }

  /** A pod on its way out is in no other admission that is still alive on a node. */
  lemma NotTwiceAway(s: State, i: nat, n: NodeName, u: Uid)
    requires DyingPending(s) && PendingOk(s) && OneAttempt(s) && Live(s, i, n) && i !in s.settled && Dying(s, u)
    ensures u !in UidsOn(GroupOf(s, i), n)
  {
    var k := s.pending[u];
    assert u in GroupOf(s, k) && (k, GroupOf(s, k)[u].node) in s.dead;
  }

  lemma FailSendsAway(s: State, i: nat, n: NodeName, u: Uid)
    requires DyingPending(s) && BornOk(s) && PendingOk(s) && OneAttempt(s) && Live(s, i, n) && i !in s.settled
    requires Dying(Apply(s, FailNode(i, n)), u)
    ensures
      var s' := Apply(s, FailNode(i, n));
      u in s'.pending && s'.pending[u] == s'.born[u]
  {
    hide PendingOk, OneAttempt, Live;
    if Dying(s, u) {
      NotTwiceAway(s, i, n, u);
    } else {
      hide DyingPending;
      assert s.born[u] == i && s.pods[u].node == n;
    }
  }

  lemma DyingStays(c: Cluster, s: State, step: Step, u: Uid)
    requires DyingPending(s) && BornOk(s) && PendingOk(s) && OneAttempt(s) && Enabled(c, s, step)
    requires Dying(Apply(s, step), u)
    ensures u in Apply(s, step).pending && Apply(s, step).pending[u] == Apply(s, step).born[u]
  {
    hide OneAttempt, PendingOk, BornOk, UidsOn, VictimsOn;
    if step.FailNode? {
      hide Apply, DyingPending;
      FailSendsAway(s, step.i, step.n, u);
    } else {
      DyingBefore(c, s, step, u);
      hide Dying;
      assert s.pending[u] == s.born[u];
    }
  }

  lemma DyingKept(c: Cluster, s: State, step: Step)
    requires DyingPending(s) && BornOk(s) && PendingOk(s) && OneAttempt(s) && Enabled(c, s, step)
    ensures DyingPending(Apply(s, step))
  {
    hide Enabled, Apply, BornOk, PendingOk, OneAttempt;
    forall u | Dying(Apply(s, step), u)
      ensures u in Apply(s, step).pending && Apply(s, step).pending[u] == Apply(s, step).born[u]
    {
      DyingStays(c, s, step, u);
    }
  }

  lemma LiveStays(c: Cluster, s: State, step: Step, i: nat, n: NodeName)
    requires Live(Apply(s, step), i, n) && Enabled(c, s, step)
    ensures IsGroup(s, i) ==> Live(s, i, n)
    ensures !IsGroup(s, i) ==> step == Commit && i == |s.groups| + 1
    ensures !IsGroup(s, i) ==> GroupOf(Apply(s, step), i) == PlanOf(s.main)
  {
    if IsGroup(s, i) {
      GroupsStay(s, step, i);
    }
  }

  lemma MarkOkStays(c: Cluster, s: State, step: Step, v: Uid)
    requires MarksOk(s) && Enabled(c, s, step) && v in Apply(s, step).markers
    ensures v in Apply(s, step).pods && !Apply(s, step).pods[v].assumed
  {
    hide GroupOf;
  }

  lemma GoneStays(c: Cluster, s: State, step: Step)
    requires MarksOk(s) && Enabled(c, s, step)
    ensures Apply(s, step).gone !! Apply(s, step).pods.Keys && Apply(s, step).gone !! Apply(s, step).accepted.Keys
  {
    hide GroupOf;
  }

  lemma MarksOkKept(c: Cluster, s: State, step: Step)
    requires MarksOk(s) && Enabled(c, s, step)
    ensures MarksOk(Apply(s, step))
  {
    hide Enabled, Apply;
    var s' := Apply(s, step);
    forall v | v in s'.markers
      ensures v in s'.pods && !s'.pods[v].assumed
    {
      MarkOkStays(c, s, step, v);
    }
    GoneStays(c, s, step);
  }

  /** A victim of a plan or of an admission, and the task it belongs to. */
  lemma OwnerOf(g: Group, n: NodeName, v: Uid) returns (u: Uid)
    requires v in VictimsOn(g, n)
    ensures u in g && g[u].node == n && v in g[u].victims
    ensures v in VictimsOf(g)
  {
    u :| u in g && g[u].node == n && v in g[u].victims;
  }

  /** A task on its way out holds no mark that a live admission relies on. */
  lemma ReleaseIsSafe(c: Cluster, s: State, u: Uid, v: Uid, i: nat, n: NodeName)
    requires GroupsOk(s) && OneAttempt(s) && PendingOk(s) && NotTakenOver(s) && LiveMarked(s)
    requires Enabled(c, s, Release(u, v))
    requires Live(s, i, n) && v in VictimsOn(GroupOf(s, i), n) && v !in s.gone
    ensures v in s.markers && s.markers[v] != u
  {
    var k := s.pending[u];
    var w := OwnerOf(GroupOf(s, i), n, v);
    assert v in VictimsOf(GroupOf(s, k));
  }

  /** A step that takes a mark away takes it from a plan or from an admission that failed. */
  lemma LiveMarkStays(c: Cluster, s: State, step: Step, i: nat, n: NodeName, v: Uid)
    requires Inv(c, s) && Enabled(c, s, step)
    requires Live(s, i, n) && v in VictimsOn(GroupOf(s, i), n) && v !in Apply(s, step).gone
    ensures v in s.markers && v in Apply(s, step).markers && Apply(s, step).markers[v] == s.markers[v]
  {
    hide CertsOk, BornOk, DyingPending, OneAttempt, PendingOk, GroupsOk, PlanOk, MarksOk, DisjointVictims;
    if step.Release? && step.v == v {
      ReleaseIsSafe(c, s, step.u, v, i, n);
    } else if step.Mark? || step.Unmark? {
      assert step.v in VictimsOf(PlanOf(s.main));
    }
  }

  /** A new admission has marked all its victims. */
  lemma CommittedAreMarked(c: Cluster, s: State, n: NodeName, v: Uid)
    requires Enabled(c, s, Commit) && v in VictimsOn(PlanOf(s.main), n) && v !in s.gone
    ensures v in s.markers && s.markers[v] in PlanOf(s.main) && v in PlanOf(s.main)[s.markers[v]].victims
  {
    var u := OwnerOf(s.main.plan, n, v);
  }

  lemma LiveMarkedAt(c: Cluster, s: State, step: Step, i: nat, n: NodeName, v: Uid)
    requires Inv(c, s) && Enabled(c, s, step)
    requires Live(Apply(s, step), i, n) && v in VictimsOn(GroupOf(Apply(s, step), i), n) && v !in Apply(s, step).gone
    ensures
      var s' := Apply(s, step);
      v in s'.markers && s'.markers[v] in GroupOf(s', i) && v in GroupOf(s', i)[s'.markers[v]].victims
  {
    hide CertsOk, BornOk, DyingPending, OneAttempt, PendingOk, NotTakenOver, MarksOk, GroupsOk, PlanOk, Enabled;
    LiveStays(c, s, step, i, n);
    if IsGroup(s, i) {
      GroupsStay(s, step, i);
      LiveMarkStays(c, s, step, i, n, v);
    } else {
      hide LiveMarked;
      CommittedAreMarked(c, s, n, v);
    }
  }

  lemma LiveMarkedKept(c: Cluster, s: State, step: Step)
    requires Inv(c, s) && Enabled(c, s, step)
    ensures LiveMarked(Apply(s, step))
  {
    hide Inv, Enabled, Apply, Live;
    var s' := Apply(s, step);
    forall i, n, v | Live(s', i, n) && v in VictimsOn(GroupOf(s', i), n) && v !in s'.gone
      ensures v in s'.markers && s'.markers[v] in GroupOf(s', i) && v in GroupOf(s', i)[s'.markers[v]].victims
    {
      LiveMarkedAt(c, s, step, i, n, v);
    }
  }

  lemma PlanShrinks(c: Cluster, s: State, step: Step, v: Uid)
    requires Enabled(c, s, step) && v in VictimsOf(PlanOf(Apply(s, step).main))
    ensures v in VictimsOf(PlanOf(s.main)) || step.Pick?
  {
    var plan := PlanOf(Apply(s, step).main);
    var u :| u in plan && v in plan[u].victims;
    assert !step.Pick? ==> u in PlanOf(s.main) && PlanOf(s.main)[u] == plan[u];
  }

  lemma NotTakenOverKept(c: Cluster, s: State, step: Step)
    requires NotTakenOver(s) && LiveMarked(s) && Enabled(c, s, step)
    ensures NotTakenOver(Apply(s, step))
  {
    var s' := Apply(s, step);
    forall i, n, v | Live(s', i, n) && v in VictimsOn(GroupOf(s', i), n) && v !in s'.gone
      ensures v !in VictimsOf(PlanOf(s'.main))
      ensures forall k :: IsGroup(s', k) && k > i ==> v !in VictimsOf(GroupOf(s', k))
    {
      NotTakenOverAt(c, s, step, i, n, v);
    }
  }

  lemma NotTakenOverAt(c: Cluster, s: State, step: Step, i: nat, n: NodeName, v: Uid)
    requires NotTakenOver(s) && LiveMarked(s) && Enabled(c, s, step)
    requires Live(Apply(s, step), i, n) && v in VictimsOn(GroupOf(Apply(s, step), i), n) && v !in Apply(s, step).gone
    ensures v !in VictimsOf(PlanOf(Apply(s, step).main))
    ensures forall k: nat :: IsGroup(Apply(s, step), k) && k > i ==> v !in VictimsOf(GroupOf(Apply(s, step), k))
  {
    var s' := Apply(s, step);
    LiveStays(c, s, step, i, n);
    if IsGroup(s, i) {
      GroupsStay(s, step, i);
      forall k: nat | IsGroup(s', k) && k > i
        ensures v !in VictimsOf(GroupOf(s', k))
      {
        if IsGroup(s, k) {
          GroupsStay(s, step, k);
        }
      }
      if v in VictimsOf(PlanOf(s'.main)) {
        PlanShrinks(c, s, step, v);
        assert false;
      }
    }
  }

  lemma FitsLess(c: Cluster, small: set<Uid>, big: set<Uid>, n: NodeName)
    requires small <= big && Fits(c, big, n)
    ensures Fits(c, small, n)
  {
    SumMonotone(small, big, u => c.request(u));
  }

  lemma PicksWellFormed(c: Cluster, s: State, step: Step)
    requires Enabled(c, s, step) && step.Pick?
    ensures DisjointVictims(step.plan) && forall u :: u in step.plan ==> step.plan[u].uid == u
  {
  }

  lemma BornAll(s: State)
    requires BornOk(s)
    ensures s.born.Keys == s.pods.Keys
  {
  }

  lemma PlanKept(c: Cluster, s: State, step: Step)
    requires PlanOk(c, s) && BornOk(s) && Enabled(c, s, step)
    ensures PlanOk(c, Apply(s, step))
  {
    hide Fits, Enabled, Apply, PlanOf, UidsOn, VictimsOn, VictimsOf, PodsOn, BornOk;
    BornAll(s);
    var s' := Apply(s, step);
    var plan, plan' := PlanOf(s.main), PlanOf(s'.main);
    PlanFrame(c, s, step);
    if step.Pick? {
      PicksWellFormed(c, s, step);
    }
    if s'.main.Checked? {
      forall n | UidsOn(plan', n) != {}
        ensures Fits(c, PodsOn(s', n) - s'.strangers - VictimsOn(plan', n) + UidsOn(plan', n), n)
      {
        PlanFitsKept(c, s, step, n);
      }
    }
    PlanMarksKept(c, s, step);
  }

  /** While a checked plan shrinks, the tasks of a node it still wants stay as they are. */
  lemma PlanOnNode(c: Cluster, s: State, step: Step, n: NodeName)
    requires Enabled(c, s, step) && !step.Check? && Apply(s, step).main.Checked?
    requires UidsOn(PlanOf(Apply(s, step).main), n) != {}
    ensures s.main.Checked? && !step.Assume?
    ensures
      var plan, plan' := PlanOf(s.main), PlanOf(Apply(s, step).main);
      UidsOn(plan', n) == UidsOn(plan, n) && forall u :: u in UidsOn(plan, n) ==> plan'[u] == plan[u]
  {
    hide GroupOf;
    var plan, plan' := PlanOf(s.main), PlanOf(Apply(s, step).main);
    assert step.DropNode? ==> plan' == plan - UidsOn(plan, step.n);
    assert !step.DropNode? ==> plan' == plan;
  }

  lemma SameVictims(plan: Group, plan': Group, n: NodeName)
    requires UidsOn(plan', n) == UidsOn(plan, n) && forall u :: u in UidsOn(plan, n) ==> plan'[u] == plan[u]
    ensures VictimsOn(plan', n) == VictimsOn(plan, n)
  {
    forall v
      ensures v in VictimsOn(plan', n) <==> v in VictimsOn(plan, n)
    {
      if v in VictimsOn(plan, n) {
        var u := OwnerOf(plan, n, v);
        assert u in UidsOn(plan, n) && u in UidsOn(plan', n);
      }
      if v in VictimsOn(plan', n) {
        var u := OwnerOf(plan', n, v);
        assert u in UidsOn(plan', n);
      }
    }
  }

  lemma NoNewPods(s: State, step: Step, n: NodeName)
    requires s.born.Keys == s.pods.Keys && !step.Assume?
    ensures PodsOn(Apply(s, step), n) - Apply(s, step).strangers <= PodsOn(s, n) - s.strangers
  {
    hide Apply;
    forall u | u in PodsOn(Apply(s, step), n) - Apply(s, step).strangers
      ensures u in PodsOn(s, n) - s.strangers
    {
      PodFrame(s, step, u);
    }
  }

  lemma ChecksPlan(c: Cluster, s: State, keep: set<Uid>, n: NodeName)
    requires Enabled(c, s, Check(keep)) && UidsOn(PlanOf(Apply(s, Check(keep)).main), n) != {}
    ensures
      var s' := Apply(s, Check(keep));
      Fits(c, PodsOn(s', n) - s'.strangers - VictimsOn(PlanOf(s'.main), n) + UidsOn(PlanOf(s'.main), n), n)
  {
    hide Fits, UidsOn, VictimsOn;
    var plan' := PlanOf(Apply(s, Check(keep)).main);
    FitsLess(c,
      PodsOn(s, n) - s.strangers - VictimsOn(plan', n) + UidsOn(plan', n),
      PodsOn(s, n) - VictimsOn(plan', n) + UidsOn(plan', n), n);
  }

  lemma PlanFitsKept(c: Cluster, s: State, step: Step, n: NodeName)
    requires PlanOk(c, s) && s.born.Keys == s.pods.Keys && Enabled(c, s, step)
    requires Apply(s, step).main.Checked?
    requires UidsOn(PlanOf(Apply(s, step).main), n) != {}
    ensures
      var s' := Apply(s, step);
      Fits(c, PodsOn(s', n) - s'.strangers - VictimsOn(PlanOf(s'.main), n) + UidsOn(PlanOf(s'.main), n), n)
  {
    hide Fits, Enabled, Apply, UidsOn, VictimsOn, PodsOn, DisjointVictims;
    var s' := Apply(s, step);
    var plan, plan' := PlanOf(s.main), PlanOf(s'.main);
    if step.Check? {
      ChecksPlan(c, s, step.keep, n);
    } else {
      PlanOnNode(c, s, step, n);
      SameVictims(plan, plan', n);
      NoNewPods(s, step, n);
      FitsLess(c,
        PodsOn(s', n) - s'.strangers - VictimsOn(plan', n) + UidsOn(plan', n),
        PodsOn(s, n) - s.strangers - VictimsOn(plan, n) + UidsOn(plan, n), n);
    }
  }

  lemma PlanMarksKept(c: Cluster, s: State, step: Step)
    requires PlanOk(c, s) && Enabled(c, s, step)
    ensures
      var s', plan' := Apply(s, step), PlanOf(Apply(s, step).main);
      forall v :: v in VictimsOf(plan') && v in s'.markers ==>
        s'.markers[v] in plan' && v in plan'[s'.markers[v]].victims
  {
    hide Fits, Enabled, Apply, PlanOk;
    var s' := Apply(s, step);
    var plan' := PlanOf(s'.main);
    forall v | v in VictimsOf(plan') && v in s'.markers
      ensures s'.markers[v] in plan' && v in plan'[s'.markers[v]].victims
    {
      PlanMarkKept(c, s, step, v);
    }
  }

  lemma PlanMarkKept(c: Cluster, s: State, step: Step, v: Uid)
    requires PlanOk(c, s) && Enabled(c, s, step)
    requires v in VictimsOf(PlanOf(Apply(s, step).main)) && v in Apply(s, step).markers
    ensures
      var s', plan' := Apply(s, step), PlanOf(Apply(s, step).main);
      s'.markers[v] in plan' && v in plan'[s'.markers[v]].victims
  {
    hide Fits;
    PlanShrinks(c, s, step, v);
    var plan' := PlanOf(Apply(s, step).main);
    var u :| u in plan' && v in plan'[u].victims;
  }

  lemma EldersOnlyOwn(c: Cluster, s: State, step: Step, i: nat, n: NodeName)
    requires BornOk(s) && Enabled(c, s, step) && i <= |s.groups|
    ensures Elders(Apply(s, step), i, n) <= Elders(s, i, n) + UidsOn(GroupOf(s, i), n)
  {
    hide Enabled, Apply, BornOk;
    forall u | u in Elders(Apply(s, step), i, n)
      ensures u in Elders(s, i, n) || u in UidsOn(GroupOf(s, i), n)
    {
      ElderWasThere(c, s, step, i, n, u);
    }
  }

  lemma ElderWasThere(c: Cluster, s: State, step: Step, i: nat, n: NodeName, u: Uid)
    requires BornOk(s) && Enabled(c, s, step) && i <= |s.groups| && u in Elders(Apply(s, step), i, n)
    ensures u in Elders(s, i, n) || u in UidsOn(GroupOf(s, i), n)
  {
    hide Enabled, Apply, GroupOf;
    PodFrame(s, step, u);
  }

  lemma OldCertKept(c: Cluster, s: State, step: Step, i: nat, n: NodeName)
    requires BornOk(s) && Cert(c, s, i, n) && Enabled(c, s, step) && IsGroup(s, i)
    ensures Cert(c, Apply(s, step), i, n)
  {
    hide Fits, BornOk, Enabled, Apply, IsGroup;
    GroupsStay(s, step, i);
    GroupIndex(s, i);
    EldersOnlyOwn(c, s, step, i, n);
    var g := GroupOf(s, i);
    hide Elders, GroupOf;
    FitsLess(c, Elders(Apply(s, step), i, n) - VictimsOn(g, n) + UidsOn(g, n),
      Elders(s, i, n) - VictimsOn(g, n) + UidsOn(g, n), n);
  }

  lemma GroupIndex(s: State, i: nat)
    requires IsGroup(s, i)
    ensures i <= |s.groups|
  {
  }

  lemma NewCert(c: Cluster, s: State, n: NodeName)
    requires PlanOk(c, s) && Enabled(c, s, Commit) && UidsOn(PlanOf(s.main), n) != {}
    ensures Cert(c, Apply(s, Commit), |s.groups| + 1, n)
  {
    hide Fits;
    var s', g := Apply(s, Commit), PlanOf(s.main);
    assert GroupOf(s', |s.groups| + 1) == g;
    assert Elders(s', |s.groups| + 1, n) <= PodsOn(s, n) - s.strangers;
    FitsLess(c, Elders(s', |s.groups| + 1, n) - VictimsOn(g, n) + UidsOn(g, n),
      PodsOn(s, n) - s.strangers - VictimsOn(g, n) + UidsOn(g, n), n);
  }

  lemma CertKept(c: Cluster, s: State, step: Step, i: nat, n: NodeName)
    requires BornOk(s) && CertsOk(c, s) && PlanOk(c, s) && Enabled(c, s, step)
    requires IsGroup(Apply(s, step), i) && UidsOn(GroupOf(Apply(s, step), i), n) != {}
    ensures Cert(c, Apply(s, step), i, n)
  {
    hide Fits, Cert, PlanOk, BornOk;
    if IsGroup(s, i) {
      GroupsStay(s, step, i);
      OldCertKept(c, s, step, i, n);
    } else {
      assert step == Commit && i == |s.groups| + 1;
      NewCert(c, s, n);
    }
  }

  lemma CertsKept(c: Cluster, s: State, step: Step)
    requires BornOk(s) && CertsOk(c, s) && PlanOk(c, s) && Enabled(c, s, step)
    ensures CertsOk(c, Apply(s, step))
  {
    hide Fits, Cert;
    var s' := Apply(s, step);
    forall n
      ensures Fits(c, Elders(s', 0, n), n)
    {
      EldersOnlyOwn(c, s, step, 0, n);
      assert UidsOn(GroupOf(s, 0), n) == {};
      FitsLess(c, Elders(s', 0, n), Elders(s, 0, n), n);
    }
    forall i, n | IsGroup(s', i) && UidsOn(GroupOf(s', i), n) != {}
      ensures Cert(c, s', i, n)
    {
      CertKept(c, s, step, i, n);
    }
  }

  lemma StepKeepsInv(c: Cluster, s: State, step: Step)
    requires Inv(c, s) && Enabled(c, s, step)
    ensures Inv(c, Apply(s, step))
  {
    hide BornOk, CertsOk, MarksOk, LiveMarked, GroupsOk, OneAttempt, PendingOk, DyingPending, NotTakenOver, PlanOk, Enabled;
    BornKept(c, s, step);
    CertsKept(c, s, step);
    MarksOkKept(c, s, step);
    LiveMarkedKept(c, s, step);
    GroupsKept(c, s, step);
    OneAttemptKept(c, s, step);
    PendingKept(c, s, step);
    DyingKept(c, s, step);
    NotTakenOverKept(c, s, step);
    PlanKept(c, s, step);
  }

  lemma InitInv(c: Cluster, s: State)
    requires Init(c, s)
    ensures Inv(c, s)
  {
    forall n
      ensures Fits(c, Elders(s, 0, n), n)
    {
      assert Elders(s, 0, n) == PodsOn(s, n);
    }
  }

  // ---- whole runs

  /** A run: from an initial state, one enabled step after another. */
  ghost predicate IsRun(c: Cluster, states: seq<State>, steps: seq<Step>) {
    && |states| == |steps| + 1
    && Init(c, states[0])
    && (forall k :: 0 <= k < |steps| ==> Leads(c, states[k], steps[k], states[k + 1]))
  }

  ghost predicate Leads(c: Cluster, s: State, step: Step, s': State) {
    Enabled(c, s, step) && s' == Apply(s, step)
  }

  lemma {:induction false} RunKeepsInv(c: Cluster, states: seq<State>, steps: seq<Step>, k: nat)
    requires IsRun(c, states, steps) && k < |states|
    ensures Inv(c, states[k])
  {
    hide Inv, Init, Enabled, Apply;
    if k == 0 {
      InitInv(c, states[0]);
    } else {
      RunKeepsInv(c, states, steps, k - 1);
      assert Leads(c, states[k - 1], steps[k - 1], states[k - 1 + 1]);
      StepKeepsInv(c, states[k - 1], steps[k - 1]);
    }
  }

  /** In every state of every run, what counts against a node fits it, strangers aside. */
  lemma CapacityOverRuns(c: Cluster, states: seq<State>, steps: seq<Step>, k: nat, n: NodeName)
    requires IsRun(c, states, steps) && k < |states|
    ensures Total(Counted(states[k], n) - states[k].strangers, c.request) <= c.allocatable(n)
    ensures Total(Counted(states[k], n), c.request) > c.allocatable(n) ==>
      exists u :: u in Counted(states[k], n) && u in states[k].strangers
  {
    hide Inv;
    RunKeepsInv(c, states, steps, k);
    NodeNeverOverfull(c, states[k], n);
    if Counted(states[k], n) !! states[k].strangers {
      assert Counted(states[k], n) - states[k].strangers == Counted(states[k], n);
    }
  }

  /** The step that makes a pod a stranger in the end: it is forgotten although its binding was accepted. */
  ghost predicate Guilty(s: State, step: Step, u: Uid) {
    || (step == Forget(u) && u in s.accepted)
    || (step.Arrive? && step.u == u)
  }

  /** An accepted pod that the cache lost is a stranger to be. */
  ghost predicate Astray(s: State, u: Uid) {
    u in s.strangers || (u in s.accepted && !AcceptedHere(s, u))
  }

  lemma GoesAstray(c: Cluster, s: State, step: Step, u: Uid)
    requires Enabled(c, s, step) && Astray(Apply(s, step), u) && !Astray(s, u)
    ensures Guilty(s, step, u)
  {
  }

  /** Every stranger has a reason. */
  lemma {:induction false} StrangersAreExplained(c: Cluster, states: seq<State>, steps: seq<Step>, k: nat, u: Uid)
    requires IsRun(c, states, steps) && k < |states| && Astray(states[k], u)
    ensures exists j :: 0 <= j < k && Guilty(states[j], steps[j], u)
  {
    hide Enabled, Apply, Guilty, Astray;
    if k == 0 {
      NobodyAstray(c, states[0], u);
    } else {
      assert Leads(c, states[k - 1], steps[k - 1], states[k - 1 + 1]);
      if Astray(states[k - 1], u) {
        StrangersAreExplained(c, states, steps, k - 1, u);
      } else {
        GoesAstray(c, states[k - 1], steps[k - 1], u);
      }
    }
  }

  lemma NobodyAstray(c: Cluster, s: State, u: Uid)
    requires Init(c, s)
    ensures !Astray(s, u)
  {
  }

  /** No pod is forgotten after its binding was accepted, and nobody else binds pods. */
  ghost predicate Careful(states: seq<State>, steps: seq<Step>) {
    |states| == |steps| + 1 &&
    forall j, u :: 0 <= j < |steps| ==> !Guilty(states[j], steps[j], u)
  }

  /** Then what counts against a node fits it, in every state of the run. */
  lemma CarefulRunsFit(c: Cluster, states: seq<State>, steps: seq<Step>, k: nat, n: NodeName)
    requires IsRun(c, states, steps) && Careful(states, steps) && k < |states|
    ensures states[k].strangers == {} && Total(Counted(states[k], n), c.request) <= c.allocatable(n)
  {
    hide Guilty, IsRun;
    forall u | u in states[k].strangers
      ensures false
    {
      StrangersAreExplained(c, states, steps, k, u);
    }
    assert states[k].strangers == {};
    CapacityOverRuns(c, states, steps, k, n);
  }

  lemma GuiltLeadsAstray(s: State, step: Step, u: Uid)
    requires Guilty(s, step, u)
    ensures Astray(Apply(s, step), u)
  {
  }

  /** A run is careful if and only if no pod ever is, or is about to become, a stranger. */
  lemma CarefulExactly(c: Cluster, states: seq<State>, steps: seq<Step>)
    requires IsRun(c, states, steps)
    ensures Careful(states, steps) <==> forall k, u :: 0 <= k < |states| ==> !Astray(states[k], u)
  {
    hide Guilty, Astray, Enabled, Apply, Init;
    if Careful(states, steps) {
      forall k, u | 0 <= k < |states|
        ensures !Astray(states[k], u)
      {
        if Astray(states[k], u) {
          StrangersAreExplained(c, states, steps, k, u);
        }
      }
    } else {
      var j, u :| 0 <= j < |steps| && Guilty(states[j], steps[j], u);
      assert Leads(c, states[j], steps[j], states[j + 1]);
      GuiltLeadsAstray(states[j], steps[j], u);
    }
  }

  /** The unmarked pods of a node that its rejected admissions have yet to give up. */
  ghost function OnTheirWayOut(s: State, n: NodeName): set<Uid> {
    set u | u in PodsOn(s, n) && u !in s.markers && Dying(s, u)
  }

  lemma DyingIsPending(s: State, u: Uid)
    requires DyingPending(s) && BornOk(s) && Dying(s, u)
    ensures u in s.pending && u in GroupOf(s, s.pending[u]) && GroupOf(s, s.pending[u])[u].node == s.pods[u].node
  {
  }

  /** The unmarked pods of a node exceed it at most by those on their way out, each of which waits to be rejected. */
  lemma OvershootIsPassing(c: Cluster, states: seq<State>, steps: seq<Step>, k: nat, n: NodeName)
    requires IsRun(c, states, steps) && k < |states|
    ensures
      var s := states[k];
      && Total(PodsOn(s, n) - s.markers.Keys - s.strangers, c.request)
         <= c.allocatable(n) + Total(OnTheirWayOut(s, n), c.request)
      && (forall u :: u in OnTheirWayOut(s, n) ==>
            u in s.pending && u in GroupOf(s, s.pending[u]) && GroupOf(s, s.pending[u])[u].node == n)
  {
    RunKeepsInv(c, states, steps, k);
    hide IsRun, CertsOk, MarksOk, LiveMarked, GroupsOk, OneAttempt, NotTakenOver, PlanOk;
    var s := states[k];
    NodeNeverOverfull(c, s, n);
    var passing := OnTheirWayOut(s, n);
    forall u | u in passing
      ensures u in s.pending && u in GroupOf(s, s.pending[u]) && GroupOf(s, s.pending[u])[u].node == n
    {
      DyingIsPending(s, u);
    }
    assert passing !! Counted(s, n) - s.strangers;
    assert PodsOn(s, n) - s.markers.Keys - s.strangers <= Counted(s, n) - s.strangers + passing;
    SumUnion(Counted(s, n) - s.strangers, passing, u => c.request(u));
    SumMonotone(PodsOn(s, n) - s.markers.Keys - s.strangers, Counted(s, n) - s.strangers + passing, u => c.request(u));
  }

  /** No task that waits to be rejected is on the node. */
  ghost predicate NonePending(s: State, n: NodeName) {
    forall u :: u in s.pending && u in GroupOf(s, s.pending[u]) ==> GroupOf(s, s.pending[u])[u].node != n
  }

  /** Over every run: with no rejection pending on a node, its unmarked pods fit, but for strangers. */
  lemma NothingPendingAllFit(c: Cluster, states: seq<State>, steps: seq<Step>, k: nat, n: NodeName)
    requires IsRun(c, states, steps) && k < |states| && NonePending(states[k], n)
    ensures OnTheirWayOut(states[k], n) == {}
    ensures Total(PodsOn(states[k], n) - states[k].markers.Keys - states[k].strangers, c.request) <= c.allocatable(n)
  {
    hide IsRun, PodsOn, Dying;
    OvershootIsPassing(c, states, steps, k, n);
    assert OnTheirWayOut(states[k], n) == {};
  }

  lemma MarkIsOwn(c: Cluster, s: State, u: Uid, v: Uid)
    requires PlanOk(c, s) && Enabled(c, s, Mark(u, v)) && v in s.markers
    ensures s.markers[v] == u
  {
    assert v in VictimsOf(s.main.plan);
  }

  ghost predicate TakesMark(step: Step, v: Uid, owner: Uid) {
    step == Delete(v) || step == Unmark(owner, v) || step == Release(owner, v)
  }

  lemma StepKeepsOwner(c: Cluster, s: State, step: Step, v: Uid)
    requires PlanOk(c, s) && Enabled(c, s, step) && v in s.markers
    ensures v in Apply(s, step).markers ==> Apply(s, step).markers[v] == s.markers[v]
    ensures v !in Apply(s, step).markers ==> TakesMark(step, v, s.markers[v])
  {
    hide PlanOk, Enabled;
    if step.Mark? && step.v == v {
      MarkIsOwn(c, s, step.u, v);
    }
  }

  /**
   No preemptor ever takes over a mark: a mark that is set belongs to the same preemptor
   already or is new, and a mark disappears only with its pod or through its own preemptor.
  */
  lemma MarksAreNeverStolen(c: Cluster, states: seq<State>, steps: seq<Step>, k: nat, v: Uid)
    requires IsRun(c, states, steps) && k < |steps|
    requires v in states[k].markers
    ensures v in states[k + 1].markers ==> states[k + 1].markers[v] == states[k].markers[v]
    ensures v !in states[k + 1].markers ==> TakesMark(steps[k], v, states[k].markers[v])
  {
    hide BornOk, CertsOk, MarksOk, LiveMarked, GroupsOk, OneAttempt, PendingOk, DyingPending, NotTakenOver, PlanOk, Enabled, Apply, Init;
    RunKeepsInv(c, states, steps, k);
    assert Leads(c, states[k], steps[k], states[k + 1]);
    StepKeepsOwner(c, states[k], steps[k], v);
  }

  // ---- the admission that starts a run is the one the checks of an attempt allow

  /** The new tasks of an attempt and the plan of the main loop are the same tasks. */
  ghost predicate PlanIsNewcomers(plan: Group, p: Placements.Placement, info: UnitLists.Infos) {
    && (forall u :: u in plan ==> u in info && !info[u].assumed && info[u].task == plan[u])
    && (forall u :: u in p && u in info && !info[u].assumed ==> u in plan)
  }

  ghost function Admissible(plan: Group, p: Placements.Placement): set<Uid> {
    set u | u in plan && u in p && (p[u] == Placements.Ready || p[u] == Placements.Waiting)
  }

  /** What the same-node check admits, node by node, is an admission the run allows. */
  lemma AdmissionIsChecked(
    c: Cluster, s: State, p: Placements.Placement, info: UnitLists.Infos, nodes: map<NodeName, NodeInfo>)
    requires s.main.Picked? && PlanIsNewcomers(s.main.plan, p, info)
    requires NodesAgree(nodes, s.pods, c.request)
    requires forall n :: n in nodes ==> nodes[n].allocatable == c.allocatable(n)
    requires forall n :: SameNode.AdmissionSound(p, info, nodes, c.request, n)
    ensures Enabled(c, s, Check(Admissible(s.main.plan, p)))
  {
    var keep := Admissible(s.main.plan, p);
    var kept := s.main.plan - (s.main.plan.Keys - keep);
    forall n | UidsOn(kept, n) != {}
      ensures Fits(c, PodsOn(s, n) - VictimsOn(kept, n) + UidsOn(kept, n), n)
    {
      var a := SameNode.Admitted(p, info, n);
      assert UidsOn(kept, n) == a;
      assert VictimsOn(kept, n) == SameNode.Preempted(a, info);
      assert SameNode.AdmissionSound(p, info, nodes, c.request, n);
      assert nodes[n].pods == PodsOn(s, n);
    }
  }


  // ---- why pods on their way out do not count

  const UNIT := Cluster(_ => 1, _ => 1)
  const PLAN: Group := map[2 := Task(2, "n", {1})]

  /** The cache of the example: pod 1 on its node, perhaps pod 2 beside it. */
  function Example(both: bool, markers: map<Uid, Uid>, groups: seq<Group>, failed: bool, main: Main): State {
    State(
      if both then map[1 := PodState("n", false), 2 := PodState("n", true)] else map[1 := PodState("n", false)],
      if both then map[1 := 0, 2 := 1] else map[1 := 0],
      markers, groups, if failed then {(1, "n")} else {}, if failed then map[2 := 1] else map[], {}, {}, map[], {}, main)
  }

  lemma OneFits(u: Uid)
    ensures Total({u}, UNIT.request) == 1
    ensures Total({}, UNIT.request) == 0
  {
    SumRemove({u}, u, x => UNIT.request(x));
    assert {u} - {u} == {};
  }

  lemma ExampleStart()
    ensures Init(UNIT, Example(false, map[], [], false, Resting))
    ensures Leads(UNIT,
      Example(false, map[], [], false, Resting), Pick(PLAN), Example(false, map[], [], false, Picked(PLAN)))
  {
    var s := Example(false, map[], [], false, Resting);
    OneFits(1);
    forall n
      ensures Fits(UNIT, PodsOn(s, n), n)
    {
      assert PodsOn(s, n) == if n == "n" then {1} else {};
    }
  }

  lemma ExampleCheck()
    ensures Leads(UNIT,
      Example(false, map[], [], false, Picked(PLAN)), Check({2}), Example(false, map[], [], false, Checked(PLAN)))
  {
    OneFits(2);
    var s := Example(false, map[], [], false, Picked(PLAN));
    var kept := PLAN - (PLAN.Keys - {2});
    assert kept == PLAN;
    forall n | UidsOn(kept, n) != {}
      ensures Fits(UNIT, PodsOn(s, n) - VictimsOn(kept, n) + UidsOn(kept, n), n)
    {
      assert n == "n";
      assert 1 in VictimsOn(kept, n) by {
        assert 2 in kept && kept[2].node == n && 1 in kept[2].victims;
      }
      assert PodsOn(s, n) - VictimsOn(kept, n) + UidsOn(kept, n) == {2};
    }
  }

  lemma ExampleAdmits()
    ensures Leads(UNIT,
      Example(false, map[], [], false, Checked(PLAN)), Mark(2, 1), Example(false, map[1 := 2], [], false, Checked(PLAN)))
    ensures Leads(UNIT,
      Example(false, map[1 := 2], [], false, Checked(PLAN)), Commit, Example(false, map[1 := 2], [PLAN], false, Assuming))
    ensures Leads(UNIT,
      Example(false, map[1 := 2], [PLAN], false, Assuming), Assume(2),
      Example(true, map[1 := 2], [PLAN], false, Assuming))
    ensures Leads(UNIT,
      Example(true, map[1 := 2], [PLAN], false, Assuming), Finish, Example(true, map[1 := 2], [PLAN], false, Resting))
  {
  }

  lemma ExampleFails()
    ensures Leads(UNIT,
      Example(true, map[1 := 2], [PLAN], false, Resting), FailNode(1, "n"),
      Example(true, map[1 := 2], [PLAN], true, Resting))
  {
    assert 2 in UidsOn(PLAN, "n");
    assert 1 in VictimsOn(PLAN, "n") by {
      assert 2 in PLAN && PLAN[2].node == "n" && 1 in PLAN[2].victims;
    }
    assert UidsOn(PLAN, "n") == {2};
  }

  lemma ExampleReleases()
    ensures Leads(UNIT,
      Example(true, map[1 := 2], [PLAN], true, Resting), Release(2, 1), Example(true, map[], [PLAN], true, Resting))
  {
    var m: map<Uid, Uid> := map[1 := 2];
    assert m - {1} == map[];
  }

  lemma ExampleEnds()
    ensures
      var s := Example(true, map[], [PLAN], true, Resting);
      Total(PodsOn(s, "n") - s.markers.Keys, UNIT.request) == 2
  {
    var s := Example(true, map[], [PLAN], true, Resting);
    assert PodsOn(s, "n") - s.markers.Keys == {1, 2};
    OneFits(2);
    SumRemove({1, 2}, 1, x => UNIT.request(x));
    assert {1, 2} - {1} == {2};
  }

  /**
   Leaving the pods on their way out uncounted is needed: a rollback takes the marks of a
   task away before it forgets the task, and in between both are unmarked on the node.
  */
  lemma RollbackCountsTwice() returns (states: seq<State>, steps: seq<Step>)
    ensures IsRun(UNIT, states, steps)
    ensures
      var s := states[|steps|];
      Total(PodsOn(s, "n") - s.markers.Keys, UNIT.request) > UNIT.allocatable("n")
  {
    hide Leads, Init, Example;
    steps := [Pick(PLAN), Check({2}), Mark(2, 1), Commit, Assume(2), Finish, FailNode(1, "n"), Release(2, 1)];
    states := [
      Example(false, map[], [], false, Resting),
      Example(false, map[], [], false, Picked(PLAN)),
      Example(false, map[], [], false, Checked(PLAN)),
      Example(false, map[1 := 2], [], false, Checked(PLAN)),
      Example(false, map[1 := 2], [PLAN], false, Assuming),
      Example(true, map[1 := 2], [PLAN], false, Assuming),
      Example(true, map[1 := 2], [PLAN], false, Resting),
      Example(true, map[1 := 2], [PLAN], true, Resting),
      Example(true, map[], [PLAN], true, Resting)];
    ExampleStart();
    ExampleCheck();
    ExampleAdmits();
    ExampleFails();
    ExampleReleases();
    ExampleEnds();
  }

  // ---- why strangers are set aside

  function Alone(u: Uid): Group {
    map[u := Task(u, "n", {})]
  }

  function Story(
    pods: map<Uid, PodState>, born: map<Uid, nat>, groups: seq<Group>, accepted: map<Uid, NodeName>,
    strangers: set<Uid>, main: Main): State
  {
    State(pods, born, map[], groups, {}, map[], {}, {}, accepted, strangers, main)
  }

  /** An empty node admits a pod that fills it. */
  lemma AdmitsOne(u: Uid, groups: seq<Group>, accepted: map<Uid, NodeName>)
    requires forall i :: 0 <= i < |groups| ==> u !in groups[i]
    ensures Leads(UNIT, Story(map[], map[], groups, accepted, {}, Resting), Pick(Alone(u)),
      Story(map[], map[], groups, accepted, {}, Picked(Alone(u))))
    ensures Leads(UNIT, Story(map[], map[], groups, accepted, {}, Picked(Alone(u))), Check({u}),
      Story(map[], map[], groups, accepted, {}, Checked(Alone(u))))
    ensures Leads(UNIT, Story(map[], map[], groups, accepted, {}, Checked(Alone(u))), Commit,
      Story(map[], map[], groups + [Alone(u)], accepted, {}, Assuming))
  {
    OneFits(u);
    var s := Story(map[], map[], groups, accepted, {}, Picked(Alone(u)));
    var kept := Alone(u) - (Alone(u).Keys - {u});
    assert kept == Alone(u);
    assert VictimsOf(Alone(u)) == {};
    forall n | UidsOn(kept, n) != {}
      ensures Fits(UNIT, PodsOn(s, n) - VictimsOn(kept, n) + UidsOn(kept, n), n)
    {
      assert PodsOn(s, n) - VictimsOn(kept, n) + UidsOn(kept, n) == {u};
    }
  }

  lemma AssumesOne(u: Uid, groups: seq<Group>, accepted: map<Uid, NodeName>)
    ensures
      var gs := groups + [Alone(u)];
      var pods, born := map[u := PodState("n", true)], map[u := |gs|];
      && Leads(UNIT, Story(map[], map[], gs, accepted, {}, Assuming), Assume(u),
           Story(pods, born, gs, accepted, {}, Assuming))
      && Leads(UNIT, Story(pods, born, gs, accepted, {}, Assuming), Finish,
           Story(pods, born, gs, accepted, {}, Resting))
  {
  }

  lemma LosesOne()
    ensures
      var pods, born := map[1 := PodState("n", true)], map[1 := 1];
      && Leads(UNIT, Story(pods, born, [Alone(1)], map[], {}, Resting), Accept(1),
           Story(pods, born, [Alone(1)], map[1 := "n"], {}, Resting))
      && Leads(UNIT, Story(pods, born, [Alone(1)], map[1 := "n"], {}, Resting), Forget(1),
           Story(map[], map[], [Alone(1)], map[1 := "n"], {}, Resting))
  {
    var pods, born: map<Uid, nat> := map[1 := PodState("n", true)], map[1 := 1];
    assert pods - {1} == map[] && born - {1} == map[];
  }

  lemma ComesBack()
    ensures Leads(UNIT,
      Story(map[2 := PodState("n", true)], map[2 := 2], [Alone(1), Alone(2)], map[1 := "n"], {}, Resting), Confirm(1),
      Story(map[1 := PodState("n", false), 2 := PodState("n", true)], map[1 := 0, 2 := 2], [Alone(1), Alone(2)],
        map[], {1}, Resting))
  {
    var accepted: map<Uid, NodeName> := map[1 := "n"];
    assert accepted - {1} == map[];
    var pods := map[2 := PodState("n", true)];
    assert pods[1 := PodState("n", false)] == map[1 := PodState("n", false), 2 := PodState("n", true)];
    var born: map<Uid, nat> := map[2 := 2];
    assert born[1 := 0] == map[1 := 0, 2 := 2];
  }

  lemma BothCount()
    ensures
      var s := Story(map[1 := PodState("n", false), 2 := PodState("n", true)], map[1 := 0, 2 := 2],
        [Alone(1), Alone(2)], map[], {1}, Resting);
      Total(Counted(s, "n"), UNIT.request) == 2
  {
    var s := Story(map[1 := PodState("n", false), 2 := PodState("n", true)], map[1 := 0, 2 := 2],
      [Alone(1), Alone(2)], map[], {1}, Resting);
    assert Counted(s, "n") == {1, 2};
    OneFits(2);
    SumRemove({1, 2}, 1, x => UNIT.request(x));
    assert {1, 2} - {1} == {2};
  }

  lemma StartsEmpty()
    ensures Init(UNIT, Story(map[], map[], [], map[], {}, Resting))
  {
    OneFits(1);
    var s := Story(map[], map[], [], map[], {}, Resting);
    forall n
      ensures Fits(UNIT, PodsOn(s, n), n)
    {
      assert PodsOn(s, n) == {};
    }
  }

  /** A stretch of a run. */
  ghost predicate IsPath(c: Cluster, states: seq<State>, steps: seq<Step>) {
    && |states| == |steps| + 1
    && (forall k :: 0 <= k < |steps| ==> Leads(c, states[k], steps[k], states[k + 1]))
  }

  lemma RunGoesOn(c: Cluster, states: seq<State>, steps: seq<Step>, more: seq<State>, moves: seq<Step>)
    requires IsRun(c, states, steps) && IsPath(c, more, moves) && states[|steps|] == more[0]
    ensures IsRun(c, states + more[1..], steps + moves)
  {
    hide Leads, Init;
    var all, path := states + more[1..], steps + moves;
    forall k | 0 <= k < |path|
      ensures Leads(c, all[k], path[k], all[k + 1])
    {
      if k >= |steps| {
        var j := k - |steps|;
        assert all[k] == more[j] && all[k + 1] == more[j + 1] && path[k] == moves[j];
        assert Leads(c, more[j], moves[j], more[j + 1]);
      }
    }
  }

  /** The first pod is admitted and bound, and forgotten. */
  lemma BoundAndForgotten() returns (states: seq<State>, steps: seq<Step>)
    ensures IsRun(UNIT, states, steps) && |steps| == 7
    ensures states[7] == Story(map[], map[], [Alone(1)], map[1 := "n"], {}, Resting)
    ensures Guilty(states[6], steps[6], 1)
  {
    hide Leads, Init, Story;
    var one, born: map<Uid, nat> := map[1 := PodState("n", true)], map[1 := 1];
    steps := [Pick(Alone(1)), Check({1}), Commit, Assume(1), Finish, Accept(1), Forget(1)];
    states := [
      Story(map[], map[], [], map[], {}, Resting),
      Story(map[], map[], [], map[], {}, Picked(Alone(1))),
      Story(map[], map[], [], map[], {}, Checked(Alone(1))),
      Story(map[], map[], [Alone(1)], map[], {}, Assuming),
      Story(one, born, [Alone(1)], map[], {}, Assuming),
      Story(one, born, [Alone(1)], map[], {}, Resting),
      Story(one, born, [Alone(1)], map[1 := "n"], {}, Resting),
      Story(map[], map[], [Alone(1)], map[1 := "n"], {}, Resting)];
    assert [] + [Alone(1)] == [Alone(1)];
    StartsEmpty();
    AdmitsOne(1, [], map[]);
    AssumesOne(1, [], map[]);
    LosesOne();
    IsAccepted();
  }

  lemma IsAccepted()
    ensures 1 in Story(map[1 := PodState("n", true)], map[1 := 1], [Alone(1)], map[1 := "n"], {}, Resting).accepted
  {
  }

  /** The second pod takes the room, and the first one comes back. */
  lemma RoomGivenAway() returns (states: seq<State>, steps: seq<Step>)
    ensures IsPath(UNIT, states, steps) && |steps| == 6
    ensures states[0] == Story(map[], map[], [Alone(1)], map[1 := "n"], {}, Resting)
    ensures Total(Counted(states[6], "n"), UNIT.request) == 2
  {
    hide Leads, Story, Counted;
    var two, born: map<Uid, nat> := map[2 := PodState("n", true)], map[2 := 2];
    steps := [Pick(Alone(2)), Check({2}), Commit, Assume(2), Finish, Confirm(1)];
    states := [
      Story(map[], map[], [Alone(1)], map[1 := "n"], {}, Resting),
      Story(map[], map[], [Alone(1)], map[1 := "n"], {}, Picked(Alone(2))),
      Story(map[], map[], [Alone(1)], map[1 := "n"], {}, Checked(Alone(2))),
      Story(map[], map[], [Alone(1), Alone(2)], map[1 := "n"], {}, Assuming),
      Story(two, born, [Alone(1), Alone(2)], map[1 := "n"], {}, Assuming),
      Story(two, born, [Alone(1), Alone(2)], map[1 := "n"], {}, Resting),
      Story(map[1 := PodState("n", false), 2 := PodState("n", true)], map[1 := 0, 2 := 2], [Alone(1), Alone(2)],
        map[], {1}, Resting)];
    assert [Alone(1)] + [Alone(2)] == [Alone(1), Alone(2)];
    AdmitsOne(2, [Alone(1)], map[1 := "n"]);
    AssumesOne(2, [Alone(1)], map[1 := "n"]);
    ComesBack();
    BothCount();
  }

  /**
   A pod whose binding was accepted is forgotten, as happens when the reply to the bind call is
   lost, and to the bound pods of a gang that falls short. Its room is given away before the cache is told, and
   then the node is overfull with no mark set and nothing on its way out.
  */
  lemma ForgottenComesBack() returns (states: seq<State>, steps: seq<Step>)
    ensures IsRun(UNIT, states, steps) && |steps| == 13
    ensures Total(Counted(states[13], "n"), UNIT.request) > UNIT.allocatable("n")
    ensures Guilty(states[6], steps[6], 1)
  {
    hide IsRun, IsPath, Counted, Guilty, Story;
    var first, firstSteps := BoundAndForgotten();
    var more, moreSteps := RoomGivenAway();
    Lengths(first, firstSteps, more, moreSteps);
    RunGoesOn(UNIT, first, firstSteps, more, moreSteps);
    states, steps := first + more[1..], firstSteps + moreSteps;
    assert states[13] == more[6];
  }

  lemma Lengths(first: seq<State>, firstSteps: seq<Step>, more: seq<State>, moreSteps: seq<Step>)
    requires IsRun(UNIT, first, firstSteps) && IsPath(UNIT, more, moreSteps)
    ensures |first| == |firstSteps| + 1 && |more| == |moreSteps| + 1
  {
  }
}
