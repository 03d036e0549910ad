/**
 The stages of an attempt that change the cache are stretches of a run: what marking, assuming
 and rejecting do to the marks and to the pods is what a sequence of single steps does, so the
 invariant of the runs holds before, between and after them.
*/
module AttemptRuns {

  import opened BinderTypes
  import opened TaskIndex
  import opened Placements
  import opened UnitLists
  import opened Caches
  import opened Capacity
  import opened BindingUnit
  import opened Workflow
  import opened Marking
  import opened Assuming
  import opened Attempt
  import opened CheckAndBind
  import Verdicts
  import SameNode

  /** A run can go on from one state to the other. */
  ghost predicate Reaches(c: Cluster, s: State, s': State) {
    exists states: seq<State>, steps: seq<Step> :: IsPath(c, states, steps) && states[0] == s && states[|steps|] == s'
  }

  lemma ReachesItself(c: Cluster, s: State)
    ensures Reaches(c, s, s)
  {
    var states: seq<State>, steps: seq<Step> := [s], [];
    assert IsPath(c, states, steps);
  }

  /** One more step. */
  lemma ReachesOn(c: Cluster, s: State, s': State, step: Step)
    requires Reaches(c, s, s') && Enabled(c, s', step)
    ensures Reaches(c, s, Apply(s', step))
  {
    hide Enabled, Apply;
    var states: seq<State>, steps: seq<Step> :| IsPath(c, states, steps) && states[0] == s && states[|steps|] == s';
    var states', steps' := states + [Apply(s', step)], steps + [step];
    forall k | 0 <= k < |steps'|
      ensures Leads(c, states'[k], steps'[k], states'[k + 1])
    {
      if k < |steps| {
        assert Leads(c, states[k], steps[k], states[k + 1]);
      }
    }
    assert IsPath(c, states', steps');
  }

  /** The invariant holds wherever a run gets to. */
  lemma ReachedKeepsInv(c: Cluster, s: State, s': State)
    requires Inv(c, s) && Reaches(c, s, s')
    ensures Inv(c, s')
  {
    hide Inv, Enabled, Apply;
    var states: seq<State>, steps: seq<Step> :| IsPath(c, states, steps) && states[0] == s && states[|steps|] == s';
    for k := 0 to |steps|
      invariant Inv(c, states[k])
    {
      assert Leads(c, states[k], steps[k], states[k + 1]);
      StepKeepsInv(c, states[k], steps[k]);
    }
  }

  // ---- marking

  lemma MarkStep(c: Cluster, s0: State, s: State, u: Uid, v: Uid)
    requires Reaches(c, s0, s) && s.main.Checked? && u in s.main.plan && v in s.main.plan[u].victims
    requires v in s.pods && !s.pods[v].assumed
    ensures Reaches(c, s0, s.(markers := s.markers[v := u]))
  {
    hide Reaches;
    ReachesOn(c, s0, s, Mark(u, v));
  }

  /** Marks that a checked plan may set. */
  ghost predicate Settable(m: Marks, plan: Group, pods: States) {
    forall v :: v in m ==> m[v] in plan && v in plan[m[v]].victims && v in pods && !pods[v].assumed
  }

  /** Setting marks one by one. */
  lemma {:induction false} MarkRun(c: Cluster, s0: State, s: State, m: Marks)
    requires Reaches(c, s0, s) && s.main.Checked? && Settable(m, s.main.plan, s.pods)
    ensures Reaches(c, s0, s.(markers := s.markers + m))
    decreases |m|
  {
    hide Reaches;
    if m == map[] {
      assert s.markers + m == s.markers;
    } else {
      var v :| v in m;
      MarkStep(c, s0, s, m[v], v);
      OneMoreMark(s.markers, m, s.main.plan, s.pods, v);
      hide Settable;
      MarkRun(c, s0, s.(markers := s.markers[v := m[v]]), m - {v});
    }
  }

  lemma OneMoreMark(markers: Marks, m: Marks, plan: Group, pods: States, v: Uid)
    requires v in m && Settable(m, plan, pods)
    ensures Settable(m - {v}, plan, pods)
    ensures markers[v := m[v]] + (m - {v}) == markers + m
    ensures |m - {v}| < |m|
  {
    hide Settable;
    OneMarkLess(markers, m, v);
    SettableLess(m, plan, pods, v);
  }

  lemma SettableLess(m: Marks, plan: Group, pods: States, v: Uid)
    requires Settable(m, plan, pods)
    ensures Settable(m - {v}, plan, pods)
  {
    var rest := m - {v};
    forall w | w in rest
      ensures rest[w] in plan && w in plan[rest[w]].victims && w in pods && !pods[w].assumed
    {
      assert w in m && rest[w] == m[w];
    }
  }

  lemma OneMarkLess(markers: Marks, m: Marks, v: Uid)
    requires v in m
    ensures markers[v := m[v]] + (m - {v}) == markers + m
    ensures |m - {v}| < |m|
  {
    SmallerMap(m, v);
    SplitMap(markers, m, m - {v}, v, m[v]);
  }

  lemma SmallerMap(m: Marks, v: Uid)
    requires v in m
    ensures |m - {v}| < |m|
  {
    var rest := m - {v};
    assert rest.Keys == m.Keys - {v};
    assert |rest.Keys| == |rest| && |m.Keys| == |m|;
  }

  lemma SplitMap(a: Marks, m: Marks, rest: Marks, v: Uid, u: Uid)
    requires v in m && m[v] == u && v !in rest
    requires forall w :: w in m && w != v ==> w in rest && rest[w] == m[w]
    requires forall w :: w in rest ==> w in m
    ensures a[v := u] + rest == a + m
  {
    var l, r := a[v := u] + rest, a + m;
    assert forall w :: w in l <==> w in r;
    assert forall w :: w in l ==> l[w] == r[w];
  }

  /** The plan without the tasks of some nodes. */
  ghost function OffNodes(plan: Group, nodes: set<NodeName>): Group {
    map u | u in plan && plan[u].node !in nodes :: plan[u]
  }

  lemma DropStep(c: Cluster, s0: State, s: State, n: NodeName)
    requires Reaches(c, s0, s) && s.main.Checked?
    requires forall u :: u in s.main.plan && s.main.plan[u].node == n ==> OwnMarksGone(s.markers, s.main.plan[u])
    ensures Reaches(c, s0, s.(main := Checked(OffNodes(s.main.plan, {n}))))
  {
    hide Reaches, OwnMarksGone;
    ReachesOn(c, s0, s, DropNode(n));
    assert s.main.plan - UidsOn(s.main.plan, n) == OffNodes(s.main.plan, {n});
  }

  /** Giving up nodes one by one. */
  lemma {:induction false} DropRun(c: Cluster, s0: State, s: State, nodes: set<NodeName>)
    requires Reaches(c, s0, s) && s.main.Checked?
    requires forall u :: u in s.main.plan && s.main.plan[u].node in nodes ==> OwnMarksGone(s.markers, s.main.plan[u])
    ensures Reaches(c, s0, s.(main := Checked(OffNodes(s.main.plan, nodes))))
    decreases |nodes|
  {
    hide Reaches, OwnMarksGone;
    if nodes == {} {
      assert OffNodes(s.main.plan, nodes) == s.main.plan;
    } else {
      var n :| n in nodes;
      DropStep(c, s0, s, n);
      DropRun(c, s0, s.(main := Checked(OffNodes(s.main.plan, {n}))), nodes - {n});
      assert OffNodes(OffNodes(s.main.plan, {n}), nodes - {n}) == OffNodes(s.main.plan, nodes);
    }
  }

  /** The plan holds the tasks that the attempt admitted. */
  ghost predicate PlanIs(plan: Group, p: Placement, info: Infos) {
    && plan.Keys == NewcomersAt(p, info, Ready) + NewcomersAt(p, info, Waiting)
    && (forall u :: u in plan ==> u in info && plan[u] == info[u].task && plan[u].uid == u)
  }

  /** What the same-node check ensures of the tasks of a node: all wait, or none does and none preempts. */
  ghost predicate NodesWaitTogether(p: Placement, info: Infos) {
    && (forall u :: u in NewcomersAt(p, info, Ready) && u in info ==> info[u].task.victims == {})
    && (forall u, w :: u in NewcomersAt(p, info, Ready) && w in NewcomersAt(p, info, Waiting) && u in info && w in info ==>
          info[u].task.node != info[w].task.node)
  }

  lemma SoundWaitsTogether(p: Placement, info: Infos, nodes: map<NodeName, NodeInfo>, req: Requests)
    requires forall n :: SameNode.AdmissionSound(p, info, nodes, req, n)
    ensures NodesWaitTogether(p, info)
  {
    forall u | u in NewcomersAt(p, info, Ready)
      ensures info[u].task.victims == {}
      ensures forall w :: w in NewcomersAt(p, info, Waiting) ==> info[w].task.node != info[u].task.node
    {
      var n := info[u].task.node;
      assert SameNode.AdmissionSound(p, info, nodes, req, n);
      var a := SameNode.Admitted(p, info, n);
      assert u in a;
      assert info[u].task.victims <= SameNode.Preempted(a, info);
      assert forall w :: w in NewcomersAt(p, info, Waiting) && info[w].task.node == n ==> w in a;
    }
  }

  lemma PlanLeft(
    plan: Group, p0: Placement, p1: Placement, info: Infos, states: States, failed: set<NodeName>, m0: Marks, m1: Marks)
    requires PlanIs(plan, p0, info) && NodesWaitTogether(p0, info)
    requires MarksNodes(p0, p1, info, states, failed, m0, m1)
    ensures PlanIs(OffNodes(plan, failed), p1, info)
  {
    hide Marked, Markable;
    var plan1 := OffNodes(plan, failed);
    forall u
      ensures u in plan1 <==> u in NewcomersAt(p1, info, Ready) + NewcomersAt(p1, info, Waiting)
    {
      assert u in NewcomersAt(p0, info, Ready) ==>
        !IsFailedNode(states, info, NewcomersAt(p0, info, Waiting), info[u].task.node);
    }
  }

  lemma NewMarksSettable(
    plan: Group, p0: Placement, p1: Placement, info: Infos, states: States, failed: set<NodeName>, m0: Marks, m1: Marks)
    requires PlanIs(plan, p0, info) && MarksNodes(p0, p1, info, states, failed, m0, m1)
    ensures Settable(map v | v in m1 && v !in m0 :: m1[v], plan, states)
    ensures m0 + (map v | v in m1 && v !in m0 :: m1[v]) == m1
  {
    forall v | v in m1 && v !in m0
      ensures m1[v] in plan && v in plan[m1[v]].victims && v in states && !states[v].assumed
    {
      var u := m1[v];
      assert u in NewcomersAt(p1, info, Waiting) && u in NewcomersAt(p0, info, Waiting);
      assert info[u].task.node !in failed;
      assert !IsFailedNode(states, info, NewcomersAt(p0, info, Waiting), info[u].task.node);
    }
  }

  lemma FailedUnmarked(
    plan: Group, p0: Placement, p1: Placement, info: Infos, states: States, failed: set<NodeName>, m0: Marks, m1: Marks, u: Uid)
    requires PlanIs(plan, p0, info) && NodesWaitTogether(p0, info) && MarksNodes(p0, p1, info, states, failed, m0, m1)
    requires u in plan && plan[u].node in failed && plan[u].victims !! m0.Keys
    ensures OwnMarksGone(m1, plan[u])
  {
    forall v | v in plan[u].victims && v in m1
      ensures m1[v] != u
    {
      assert v !in m0;
      assert m1[v] in NewcomersAt(p1, info, Waiting) && m1[v] in NewcomersAt(p0, info, Waiting);
    }
  }

  /** The state in which the main loop has admitted the plan. */
  ghost function Admitting(s: State, plan: Group, m: Marks): State {
    s.(markers := m, main := Capacity.Assuming, groups := s.groups + [plan])
  }

  lemma CommitStep(c: Cluster, s0: State, s: State)
    requires Reaches(c, s0, s) && s.main.Checked?
    requires forall u, v :: u in s.main.plan && v in s.main.plan[u].victims ==> v in s.markers && s.markers[v] == u
    ensures Reaches(c, s0, Admitting(s, s.main.plan, s.markers))
  {
    hide Reaches;
    ReachesOn(c, s0, s, Commit);
  }

  lemma AllMarked(
    plan: Group, p0: Placement, p1: Placement, info: Infos, states: States, failed: set<NodeName>, m0: Marks, m1: Marks)
    requires PlanIs(plan, p1, info) && NodesWaitTogether(p0, info)
    requires MarksNodes(p0, p1, info, states, failed, m0, m1)
    ensures forall u, v :: u in plan && v in plan[u].victims ==> v in m1 && m1[v] == u
  {
    hide Markable, IsFailedNode;
    forall u, v | u in plan && v in plan[u].victims
      ensures v in m1 && m1[v] == u
    {
      assert u in NewcomersAt(p1, info, Ready) ==> u in NewcomersAt(p0, info, Ready);
    }
  }

  /**
   What marking does is a stretch of a run: it sets marks, gives up the nodes it fails and
   admits what is left.
  */
  lemma MarkingIsRun(
    c: Cluster, s: State, p0: Placement, p1: Placement, info: Infos, failed: set<NodeName>, m1: Marks)
    requires s.main.Checked? && PlanIs(s.main.plan, p0, info) && NodesWaitTogether(p0, info)
    requires forall u :: u in s.main.plan ==> s.main.plan[u].victims !! s.markers.Keys
    requires MarksNodes(p0, p1, info, s.pods, failed, s.markers, m1)
    ensures PlanIs(OffNodes(s.main.plan, failed), p1, info)
    ensures Reaches(c, s, Admitting(s, OffNodes(s.main.plan, failed), m1))
  {
    hide Reaches, MarksNodes, PlanIs, NodesWaitTogether, Settable, OwnMarksGone, OffNodes;
    var plan, m0 := s.main.plan, s.markers;
    ReachesItself(c, s);
    NewMarksSettable(plan, p0, p1, info, s.pods, failed, m0, m1);
    MarkRun(c, s, s, map v | v in m1 && v !in m0 :: m1[v]);
    forall u | u in plan && plan[u].node in failed
      ensures OwnMarksGone(m1, plan[u])
    {
      FailedUnmarked(plan, p0, p1, info, s.pods, failed, m0, m1, u);
    }
    DropRun(c, s, s.(markers := m1), failed);
    PlanLeft(plan, p0, p1, info, s.pods, failed, m0, m1);
    AllMarked(OffNodes(plan, failed), p0, p1, info, s.pods, failed, m0, m1);
    CommitStep(c, s, s.(markers := m1, main := Checked(OffNodes(plan, failed))));
  }

  // ---- assuming and forgetting

  ghost function PodsFor(g: Group, done: set<Uid>): States {
    map u | u in done && u in g :: PodState(g[u].node, true)
  }

  ghost function BirthsFor(g: Group, done: set<Uid>, i: nat): map<Uid, nat> {
    map u | u in done && u in g :: i
  }

  /** The state with some tasks of the last admission assumed. */
  ghost function WithAssumed(s: State, done: set<Uid>): State {
    var i := |s.groups|;
    s.(pods := s.pods + PodsFor(GroupOf(s, i), done), born := s.born + BirthsFor(GroupOf(s, i), done, i))
  }

  /** Tasks of the last admission that can be assumed. */
  ghost predicate CanAssume(s: State, done: set<Uid>) {
    var i := |s.groups|;
    && s.main == Capacity.Assuming
    && (forall u :: u in done ==>
          u in GroupOf(s, i) && u !in s.pods && u !in s.gone && (i, GroupOf(s, i)[u].node) !in s.dead)
  }

  lemma OneFor(pods: States, born: map<Uid, nat>, g: Group, u: Uid, i: nat)
    requires u in g
    ensures pods + PodsFor(g, {u}) == pods[u := PodState(g[u].node, true)]
    ensures born + BirthsFor(g, {u}, i) == born[u := i]
  {
  }

  lemma AssumeStep(c: Cluster, s0: State, s: State, u: Uid)
    requires Reaches(c, s0, s) && CanAssume(s, {u})
    ensures Reaches(c, s0, WithAssumed(s, {u}))
  {
    hide Reaches, PodsFor, BirthsFor, GroupOf, IsGroup;
    assert u in {u};
    ReachesOn(c, s0, s, Assume(u));
    OneFor(s.pods, s.born, GroupOf(s, |s.groups|), u, |s.groups|);
  }

  lemma SplitFor(pods: States, born: map<Uid, nat>, g: Group, done: set<Uid>, u: Uid, i: nat)
    requires u in done
    ensures pods + PodsFor(g, {u}) + PodsFor(g, done - {u}) == pods + PodsFor(g, done)
    ensures born + BirthsFor(g, {u}, i) + BirthsFor(g, done - {u}, i) == born + BirthsFor(g, done, i)
  {
    assert PodsFor(g, {u}) + PodsFor(g, done - {u}) == PodsFor(g, done);
    assert BirthsFor(g, {u}, i) + BirthsFor(g, done - {u}, i) == BirthsFor(g, done, i);
  }

  lemma OneMoreAssumed(s: State, done: set<Uid>, u: Uid)
    requires CanAssume(s, done) && u in done
    ensures CanAssume(s, {u}) && CanAssume(WithAssumed(s, {u}), done - {u})
    ensures WithAssumed(WithAssumed(s, {u}), done - {u}) == WithAssumed(s, done)
  {
    hide PodsFor, BirthsFor;
    var i := |s.groups|;
    var g := GroupOf(s, i);
    SplitFor(s.pods, s.born, g, done, u, i);
    KeysFor(g, {u});
    assert GroupOf(WithAssumed(s, {u}), i) == g;
  }

  lemma KeysFor(g: Group, done: set<Uid>)
    ensures forall u :: u in PodsFor(g, done) ==> u in done
  {
  }

  /** Assuming tasks one by one. */
  lemma {:induction false} AssumeRun(c: Cluster, s0: State, s: State, done: set<Uid>)
    requires Reaches(c, s0, s) && CanAssume(s, done)
    ensures Reaches(c, s0, WithAssumed(s, done))
    decreases |done|
  {
    hide Reaches, CanAssume, WithAssumed;
    if done == {} {
      NoneAssumed(s);
    } else {
      var u :| u in done;
      OneMoreAssumed(s, done, u);
      AssumeStep(c, s0, s, u);
      AssumeRun(c, s0, WithAssumed(s, {u}), done - {u});
    }
  }

  lemma NoneAssumed(s: State)
    ensures WithAssumed(s, {}) == s
  {
    var i := |s.groups|;
    assert PodsFor(GroupOf(s, i), {}) == map[] && BirthsFor(GroupOf(s, i), {}, i) == map[];
    assert s.pods + map[] == s.pods && s.born + map[] == s.born;
  }

  /** What assuming does to the cache is a stretch of a run, however far it got. */
  lemma AssumingIsRun(
    c: Cluster, s: State, done: set<Uid>, q0: Queued, q: Queued, states: States)
    requires s.main == Capacity.Assuming && s.groups != []
    requires AssumedSo(GroupOf(s, |s.groups|), done, q0, q, s.pods, states)
    requires done !! s.gone
    requires forall u :: u in GroupOf(s, |s.groups|) ==> (|s.groups|, GroupOf(s, |s.groups|)[u].node) !in s.dead
    ensures WithAssumed(s, done).pods == states
    ensures Reaches(c, s, WithAssumed(s, done))
  {
    hide Reaches;
    ReachesItself(c, s);
    AssumeRun(c, s, s, done);
    assert WithAssumed(s, done).pods == states;
  }

  /** The state without some pods. */
  ghost function WithoutPods(s: State, out: set<Uid>): State {
    s.(pods := s.pods - out, born := s.born - out, strangers := s.strangers - out)
  }

  /** Forgetting assumed pods one by one. */
  lemma {:induction false} ForgetRun(c: Cluster, s0: State, s: State, out: set<Uid>)
    requires Reaches(c, s0, s) && (forall u :: u in out ==> u in s.pods && s.pods[u].assumed)
    ensures Reaches(c, s0, WithoutPods(s, out))
    decreases |out|
  {
    hide Reaches, Enabled, Apply;
    if out == {} {
      assert s.pods - out == s.pods && s.born - out == s.born && s.strangers - out == s.strangers;
    } else {
      var u :| u in out;
      ForgetStep(c, s0, s, u);
      var s1 := WithoutPods(s, {u});
      ForgetRun(c, s0, s1, out - {u});
      assert s1.pods - (out - {u}) == s.pods - out && s1.born - (out - {u}) == s.born - out;
      assert s1.strangers - (out - {u}) == s.strangers - out;
    }
  }

  lemma ForgetStep(c: Cluster, s0: State, s: State, u: Uid)
    requires Reaches(c, s0, s) && u in s.pods && s.pods[u].assumed
    ensures Reaches(c, s0, WithoutPods(s, {u}))
  {
    hide Reaches;
    ReachesOn(c, s0, s, Forget(u));
  }

  // ---- rejecting

  ghost function DeadOn(i: nat, nodes: set<NodeName>): set<(nat, NodeName)> {
    set n | n in nodes :: (i, n)
  }

  ghost function PendingOn(g: Group, i: nat, nodes: set<NodeName>): map<Uid, nat> {
    map u | u in g && g[u].node in nodes :: i
  }

  /** The state in which an admission has failed on some nodes. */
  ghost function WithFailed(s: State, i: nat, nodes: set<NodeName>): State {
    s.(dead := s.dead + DeadOn(i, nodes), pending := s.pending + PendingOn(GroupOf(s, i), i, nodes))
  }

  ghost predicate CanFail(s: State, i: nat, nodes: set<NodeName>) {
    && i !in s.settled
    && (forall n :: n in nodes ==> Capacity.Live(s, i, n) && VictimsOn(GroupOf(s, i), n) != {})
  }

  lemma FailIs(s: State, i: nat, n: NodeName)
    ensures Apply(s, FailNode(i, n)) == WithFailed(s, i, {n})
  {
    hide GroupOf;
    var s' := Apply(s, FailNode(i, n));
    assert DeadOn(i, {n}) == {(i, n)};
    assert s'.pending == s.pending + PendingOn(GroupOf(s, i), i, {n});
  }

  lemma FailStep(c: Cluster, s0: State, s: State, i: nat, n: NodeName)
    requires Reaches(c, s0, s) && CanFail(s, i, {n})
    ensures Reaches(c, s0, WithFailed(s, i, {n}))
  {
    hide Reaches, Capacity.Live, VictimsOn, Apply, WithFailed, GroupOf;
    assert n in {n};
    FailIs(s, i, n);
    ReachesOn(c, s0, s, FailNode(i, n));
  }

  lemma SplitFailed(dead: set<(nat, NodeName)>, pending: map<Uid, nat>, g: Group, i: nat, nodes: set<NodeName>, n: NodeName)
    requires n in nodes
    ensures dead + DeadOn(i, {n}) + DeadOn(i, nodes - {n}) == dead + DeadOn(i, nodes)
    ensures pending + PendingOn(g, i, {n}) + PendingOn(g, i, nodes - {n}) == pending + PendingOn(g, i, nodes)
  {
    assert DeadOn(i, nodes) == DeadOn(i, {n}) + DeadOn(i, nodes - {n});
  }

  lemma OneMoreFailed(s: State, i: nat, nodes: set<NodeName>, n: NodeName)
    requires CanFail(s, i, nodes) && n in nodes
    ensures CanFail(s, i, {n}) && CanFail(WithFailed(s, i, {n}), i, nodes - {n})
    ensures WithFailed(WithFailed(s, i, {n}), i, nodes - {n}) == WithFailed(s, i, nodes)
  {
    hide PendingOn, VictimsOn, UidsOn;
    SplitFailed(s.dead, s.pending, GroupOf(s, i), i, nodes, n);
    assert DeadOn(i, {n}) == {(i, n)};
    assert GroupOf(WithFailed(s, i, {n}), i) == GroupOf(s, i);
  }

  /** Failing the nodes of an admission one by one. */
  lemma {:induction false} FailRun(c: Cluster, s0: State, s: State, i: nat, nodes: set<NodeName>)
    requires Reaches(c, s0, s) && CanFail(s, i, nodes)
    ensures Reaches(c, s0, WithFailed(s, i, nodes))
    decreases |nodes|
  {
    hide Reaches, CanFail, WithFailed;
    if nodes == {} {
      NoneFailed(s, i);
    } else {
      var n :| n in nodes;
      OneMoreFailed(s, i, nodes, n);
      FailStep(c, s0, s, i, n);
      FailRun(c, s0, WithFailed(s, i, {n}), i, nodes - {n});
    }
  }

  lemma NoneFailed(s: State, i: nat)
    ensures WithFailed(s, i, {}) == s
  {
    assert DeadOn(i, {}) == {} && PendingOn(GroupOf(s, i), i, {}) == map[];
    assert s.pending + map[] == s.pending;
  }

  /** Marks that their own preemptors, on their way out, may release. */
  ghost predicate CanRelease(s: State, out: set<Uid>) {
    forall v :: v in out ==>
      && v in s.markers && s.markers[v] in s.pending
      && s.markers[v] in GroupOf(s, s.pending[s.markers[v]])
      && v in GroupOf(s, s.pending[s.markers[v]])[s.markers[v]].victims
  }

  lemma ReleaseStep(c: Cluster, s0: State, s: State, v: Uid)
    requires Reaches(c, s0, s) && CanRelease(s, {v})
    ensures Reaches(c, s0, s.(markers := s.markers - {v}))
  {
    hide Reaches, GroupOf;
    assert v in {v};
    ReachesOn(c, s0, s, Release(s.markers[v], v));
  }

  lemma OneMoreReleased(s: State, out: set<Uid>, v: Uid)
    requires CanRelease(s, out) && v in out
    ensures CanRelease(s, {v}) && CanRelease(s.(markers := s.markers - {v}), out - {v})
    ensures s.markers - {v} - (out - {v}) == s.markers - out
  {
    var s1 := s.(markers := s.markers - {v});
    assert forall i :: GroupOf(s1, i) == GroupOf(s, i);
  }

  /** Releasing marks one by one. */
  lemma {:induction false} ReleaseRun(c: Cluster, s0: State, s: State, out: set<Uid>)
    requires Reaches(c, s0, s) && CanRelease(s, out)
    ensures Reaches(c, s0, s.(markers := s.markers - out))
    decreases |out|
  {
    hide Reaches, CanRelease;
    if out == {} {
      assert s.markers - out == s.markers;
    } else {
      var v :| v in out;
      OneMoreReleased(s, out, v);
      ReleaseStep(c, s0, s, v);
      ReleaseRun(c, s0, s.(markers := s.markers - {v}), out - {v});
    }
  }

  /** Tasks whose rejection is complete. */
  ghost predicate CanClose(s: State, out: set<Uid>) {
    forall u :: u in out ==>
      && u in s.pending && u in GroupOf(s, s.pending[u]) && u !in s.pods
      && OwnMarksGone(s.markers, GroupOf(s, s.pending[u])[u])
  }

  lemma CloseStep(c: Cluster, s0: State, s: State, u: Uid)
    requires Reaches(c, s0, s) && CanClose(s, {u})
    ensures Reaches(c, s0, s.(pending := s.pending - {u}))
  {
    hide Reaches, GroupOf, OwnMarksGone;
    assert u in {u};
    ReachesOn(c, s0, s, Rejected(u));
  }

  lemma OneMoreClosed(s: State, out: set<Uid>, u: Uid)
    requires CanClose(s, out) && u in out
    ensures CanClose(s, {u}) && CanClose(s.(pending := s.pending - {u}), out - {u})
    ensures s.pending - {u} - (out - {u}) == s.pending - out
  {
    hide OwnMarksGone;
    var s1 := s.(pending := s.pending - {u});
    assert forall i :: GroupOf(s1, i) == GroupOf(s, i);
  }

  /** Closing rejections one by one. */
  lemma {:induction false} CloseRun(c: Cluster, s0: State, s: State, out: set<Uid>)
    requires Reaches(c, s0, s) && CanClose(s, out)
    ensures Reaches(c, s0, s.(pending := s.pending - out))
    decreases |out|
  {
    hide Reaches, CanClose;
    if out == {} {
      assert s.pending - out == s.pending;
    } else {
      var u :| u in out;
      OneMoreClosed(s, out, u);
      CloseStep(c, s0, s, u);
      CloseRun(c, s0, s.(pending := s.pending - {u}), out - {u});
    }
  }

  /** The marks that rejecting the failed tasks takes away. */
  ghost function MarksOut(m: Marks, failed: Infos): set<Uid> {
    set v | v in m && m[v] in failed && v in failed[m[v]].task.victims
  }

  /** The pods that rejecting the failed tasks makes the cache forget. */
  ghost function PodsOut(s: States, failed: Infos, queued: Queued, forgetOk: Uid -> bool): set<Uid> {
    set u | u in s && u in failed && IsForgotten(u, failed[u], queued, s, forgetOk)
  }

  lemma RejectionIs(m: Marks, s: States, failed: Infos, queued: Queued, forgetOk: Uid -> bool)
    ensures m - MarksOut(m, failed) == Released(m, failed)
    ensures s - PodsOut(s, failed, queued, forgetOk) == Kept(s, failed, queued, forgetOk)
    ensures forall u :: u in PodsOut(s, failed, queued, forgetOk) ==> u in s && s[u].assumed
  {
  }

  /** The failed tasks of an admission that are no longer in the cache. */
  ghost function Closing(g: Group, nodes: set<NodeName>, failed: Infos, pods: States): set<Uid> {
    set u | u in g && g[u].node in nodes && u in failed && u !in pods
  }

  /** The failed tasks are those of the admission, and what they marked they marked for nodes that fail. */
  ghost predicate FailedHere(s: State, i: nat, nodes: set<NodeName>, failed: Infos) {
    var g := GroupOf(s, i);
    && (forall u :: u in g && u in failed ==> g[u] == failed[u].task && g[u].uid == u)
    && (forall v :: v in MarksOut(s.markers, failed) ==> s.markers[v] in g && g[s.markers[v]].node in nodes)
  }

  /** The state after the failed tasks were rejected. */
  ghost function AfterRejection(
    s: State, i: nat, nodes: set<NodeName>, failed: Infos, queued: Queued, forgetOk: Uid -> bool): State
  {
    var s1 := WithFailed(s, i, nodes);
    var s2 := s1.(markers := s.markers - MarksOut(s.markers, failed));
    var s3 := WithoutPods(s2, PodsOut(s.pods, failed, queued, forgetOk));
    s3.(pending := s3.pending - Closing(GroupOf(s, i), nodes, failed, s3.pods))
  }

  lemma OwnReleasable(s: State, i: nat, nodes: set<NodeName>, failed: Infos)
    requires FailedHere(s, i, nodes, failed)
    ensures CanRelease(WithFailed(s, i, nodes), MarksOut(s.markers, failed))
  {
    hide DeadOn;
    var s1 := WithFailed(s, i, nodes);
    forall v | v in MarksOut(s.markers, failed)
      ensures
        var u := s.markers[v];
        u in s1.pending && u in GroupOf(s1, s1.pending[u]) && v in GroupOf(s1, s1.pending[u])[u].victims
    {
      var u := s.markers[v];
      assert u in PendingOn(GroupOf(s, i), i, nodes);
      assert s1.pending[u] == i;
      assert GroupOf(s1, i) == GroupOf(s, i);
    }
  }

  lemma ReleasedClean(s: State, i: nat, nodes: set<NodeName>, failed: Infos, u: Uid)
    requires FailedHere(s, i, nodes, failed) && u in GroupOf(s, i) && u in failed
    ensures OwnMarksGone(s.markers - MarksOut(s.markers, failed), GroupOf(s, i)[u])
  {
  }

  lemma Closable(s: State, s3: State, i: nat, nodes: set<NodeName>, failed: Infos)
    requires FailedHere(s, i, nodes, failed)
    requires s3.groups == s.groups && s3.pending == WithFailed(s, i, nodes).pending
    requires s3.markers == s.markers - MarksOut(s.markers, failed)
    ensures CanClose(s3, Closing(GroupOf(s, i), nodes, failed, s3.pods))
  {
    hide DeadOn, FailedHere, MarksOut, OwnMarksGone;
    forall u | u in Closing(GroupOf(s, i), nodes, failed, s3.pods)
      ensures
        && u in s3.pending && u in GroupOf(s3, s3.pending[u]) && u !in s3.pods
        && OwnMarksGone(s3.markers, GroupOf(s3, s3.pending[u])[u])
    {
      assert u in PendingOn(GroupOf(s, i), i, nodes);
      assert s3.pending[u] == i && GroupOf(s3, i) == GroupOf(s, i);
      ReleasedClean(s, i, nodes, failed, u);
    }
  }

  /**
   What rejecting the failed tasks does to marks and cache is a stretch of a run: their nodes
   fail, the marks are released, the pods are forgotten as far as that succeeds, and what is
   gone is done with.
  */
  lemma RejectingIsRun(
    c: Cluster, s: State, i: nat, nodes: set<NodeName>, failed: Infos, queued: Queued, forgetOk: Uid -> bool)
    requires CanFail(s, i, nodes) && FailedHere(s, i, nodes, failed)
    ensures
      var s' := AfterRejection(s, i, nodes, failed, queued, forgetOk);
      && s'.markers == Released(s.markers, failed)
      && s'.pods == Kept(s.pods, failed, queued, forgetOk)
      && Reaches(c, s, s')
  {
    hide Reaches, CanFail, FailedHere, CanRelease, CanClose, Closing, MarksOut, PodsOut, PendingOn, DeadOn, GroupOf,
         Released, Kept;
    RejectionIs(s.markers, s.pods, failed, queued, forgetOk);
    ReachesItself(c, s);
    FailRun(c, s, s, i, nodes);
    var s1 := WithFailed(s, i, nodes);
    OwnReleasable(s, i, nodes, failed);
    ReleaseRun(c, s, s1, MarksOut(s.markers, failed));
    var s2 := s1.(markers := s.markers - MarksOut(s.markers, failed));
    ForgetRun(c, s, s2, PodsOut(s.pods, failed, queued, forgetOk));
    var s3 := WithoutPods(s2, PodsOut(s.pods, failed, queued, forgetOk));
    Closable(s, s3, i, nodes, failed);
    CloseRun(c, s, s3, Closing(GroupOf(s, i), nodes, failed, s3.pods));
  }

  // ---- a whole attempt

  lemma ReachesThrough(c: Cluster, a: State, b: State, d: State)
    requires Reaches(c, a, b) && Reaches(c, b, d)
    ensures Reaches(c, a, d)
  {
    hide Enabled, Apply;
    var states: seq<State>, steps: seq<Step> :| IsPath(c, states, steps) && states[0] == b && states[|steps|] == d;
    for k := 0 to |steps|
      invariant Reaches(c, a, states[k])
    {
      hide Reaches;
      assert Leads(c, states[k], steps[k], states[k + 1]);
      ReachesOn(c, a, states[k], steps[k]);
    }
  }

  /** Only admissions there are can be dead or over. */
  ghost predicate IndexesKnown(s: State) {
    && (forall d :: d in s.dead ==> IsGroup(s, d.0))
    && (forall i :: i in s.settled ==> IsGroup(s, i))
  }

  lemma IndexesStayKnown(c: Cluster, s: State, step: Step)
    requires IndexesKnown(s) && Enabled(c, s, step)
    ensures IndexesKnown(Apply(s, step))
  {
  }

  /** The state of a run agrees with the cache, and the pods of the unit are in no attempt and not gone. */
  ghost predicate Before(
    c: Cluster, s: State, pods: set<Uid>, nodes: map<NodeName, NodeInfo>, m0: Marks, s0: States)
  {
    && s.main == Resting && s.pods == s0 && s.markers == m0
    && IndexesKnown(s) && pods !! s.gone
    && (forall i :: IsGroup(s, i) && i !in s.settled ==> pods !! GroupOf(s, i).Keys)
    && NodesAgree(nodes, s0, c.request)
    && (forall n :: n in nodes ==> nodes[n].allocatable == c.allocatable(n))
  }

  /** The new tasks of a unit. */
  ghost function PlanFor(info: Infos): Group {
    map u | u in info && !info[u].assumed :: info[u].task
  }

  /** The new tasks that the same-node check admitted. */
  ghost function Kept4(info: Infos, p3: Placement): Group {
    map u | u in info && !info[u].assumed && u in p3 && (p3[u] == Ready || p3[u] == Waiting) :: info[u].task
  }

  lemma PicksPlan(c: Cluster, s: State, info: Infos, nodes: map<NodeName, NodeInfo>, m0: Marks, s0: States)
    requires Before(c, s, info.Keys, nodes, m0, s0) && Clean(info, m0) && Exclusive(info)
    requires forall u :: u in info ==> info[u].task.uid == u
    ensures Reaches(c, s, s.(main := Picked(PlanFor(info))))
  {
    var plan := PlanFor(info);
    hide Reaches, NodesAgree;
    assert plan.Keys <= info.Keys;
    forall v | v in VictimsOf(plan)
      ensures v !in s.markers
    {
      var u :| u in plan && v in plan[u].victims;
    }
    ReachesItself(c, s);
    ReachesOn(c, s, s, Pick(plan));
  }

  lemma ChecksKept(
    c: Cluster, s: State, info: Infos, p3: Placement, nodes: map<NodeName, NodeInfo>, m0: Marks, s0: States)
    requires Before(c, s, info.Keys, nodes, m0, s0) && p3.Keys == info.Keys
    requires forall n :: SameNode.AdmissionSound(p3, info, nodes, c.request, n)
    requires Reaches(c, s, s.(main := Picked(PlanFor(info))))
    ensures Reaches(c, s, s.(main := Capacity.Checked(Kept4(info, p3))))
  {
    hide Reaches, NodesAgree, SameNode.AdmissionSound;
    var s1 := s.(main := Picked(PlanFor(info)));
    AdmissionIsChecked(c, s1, p3, info, nodes);
    ReachesOn(c, s, s1, Check(Admissible(s1.main.plan, p3)));
    KeptIs(info, p3);
  }

  lemma KeptIs(info: Infos, p3: Placement)
    ensures PlanFor(info) - (PlanFor(info).Keys - Admissible(PlanFor(info), p3)) == Kept4(info, p3)
  {
  }

  lemma KeptIsPlan(info: Infos, p3: Placement, m0: Marks)
    requires p3.Keys == info.Keys && Clean(info, m0) && forall u :: u in info ==> info[u].task.uid == u
    ensures PlanIs(Kept4(info, p3), p3, info)
    ensures forall u :: u in Kept4(info, p3) ==> Kept4(info, p3)[u].victims !! m0.Keys
  {
    assert Kept4(info, p3).Keys == NewcomersAt(p3, info, Ready) + NewcomersAt(p3, info, Waiting);
  }

  /** From the check to the end of the assume stage. */
  ghost function Assumed4(s: State, g: Group, m4: Marks, left: set<Uid>): State {
    WithAssumed(Admitting(s, g, m4), left).(main := Resting)
  }

  lemma NewGroup(s: State, g: Group, m: Marks)
    ensures GroupOf(Admitting(s, g, m), |s.groups| + 1) == g && |Admitting(s, g, m).groups| == |s.groups| + 1
  {
  }

  lemma AssumesLeft(
    c: Cluster, s: State, g: Group, m4: Marks, left: set<Uid>, info: Infos, s4: States)
    requires IndexesKnown(s) && left <= g.Keys && left !! s.gone && Grew(s.pods, s4, info, left)
    requires forall u :: u in g ==> u in info && g[u] == info[u].task
    requires Reaches(c, s, Admitting(s, g, m4))
    ensures Reaches(c, s, Assumed4(s, g, m4, left)) && Assumed4(s, g, m4, left).pods == s4
  {
    hide Reaches;
    var a := Admitting(s, g, m4);
    NewGroup(s, g, m4);
    assert CanAssume(a, left);
    AssumeRun(c, s, a, left);
    FinishStep(c, s, WithAssumed(a, left));
    assert a.pods + PodsFor(g, left) == s4;
  }

  lemma FinishStep(c: Cluster, s0: State, s: State)
    requires Reaches(c, s0, s) && s.main == Capacity.Assuming
    ensures Reaches(c, s0, s.(main := Resting))
  {
    hide Reaches;
    ReachesOn(c, s0, s, Finish);
  }

  /** The nodes on which an admission fails when these tasks are rejected. */
  ghost function FailingNodes(g: Group, failed: Infos): set<NodeName> {
    set u | u in g && u in failed && g[u].victims != {} :: g[u].node
  }

  lemma CanFailThere(s: State, g: Group, m4: Marks, left: set<Uid>, failed: Infos)
    requires IndexesKnown(s)
    ensures CanFail(Assumed4(s, g, m4, left), |s.groups| + 1, FailingNodes(g, failed))
  {
    hide PodsFor, BirthsFor;
    var a, i := Assumed4(s, g, m4, left), |s.groups| + 1;
    assert GroupOf(a, i) == g && IsGroup(a, i);
    forall n | n in FailingNodes(g, failed)
      ensures Capacity.Live(a, i, n) && VictimsOn(g, n) != {}
    {
      var u :| u in g && u in failed && g[u].victims != {} && g[u].node == n;
      var v :| v in g[u].victims;
      assert u in UidsOn(g, n) && v in VictimsOn(g, n);
    }
  }

  lemma FailedAreHere(
    s: State, g: Group, m4: Marks, did: Effects, p3: Placement, info: Infos, failed: Infos, m0: Marks, s0: States, s4: States)
    requires EffectsOk(did, p3, info, m0, m4, s0, s4) && Clean(info, m0)
    requires g.Keys == NewcomersAt(did.p1, info, Ready) + NewcomersAt(did.p1, info, Waiting)
    requires forall u :: u in g ==> u in info && !info[u].assumed && g[u] == info[u].task && g[u].uid == u
    requires forall u :: u in info ==> info[u].assumed ==> info[u].task.victims == {}
    requires forall u :: u in failed ==> u in info && FailureOf(failed[u], info[u])
    ensures FailedHere(Assumed4(s, g, m4, did.left), |s.groups| + 1, FailingNodes(g, failed), failed)
  {
    hide PodsFor, BirthsFor, Grew;
    var a := Assumed4(s, g, m4, did.left);
    assert GroupOf(a, |s.groups| + 1) == g;
    forall v | v in MarksOut(m4, failed)
      ensures m4[v] in g && g[m4[v]].node in FailingNodes(g, failed)
    {
      var u := m4[v];
      assert v !in m0;
      assert u in NewcomersAt(did.p1, info, Waiting);
    }
  }

  /** A unit that failed early only forgets pods. */
  lemma EarlyIsRun(
    c: Cluster, s: State, info: Infos, failed: Infos, queued: Queued, forgetOk: Uid -> bool, m0: Marks)
    requires s.markers == m0 && Clean(info, m0)
    requires forall u :: u in failed ==> u in info && FailureOf(failed[u], info[u])
    ensures Released(m0, failed) == m0
    ensures
      var s' := WithoutPods(s, PodsOut(s.pods, failed, queued, forgetOk));
      s'.pods == Kept(s.pods, failed, queued, forgetOk) && s'.markers == m0 && Reaches(c, s, s')
  {
    hide Reaches, PodsOut;
    RejectionIs(m0, s.pods, failed, queued, forgetOk);
    ReachesItself(c, s);
    ForgetRun(c, s, s, PodsOut(s.pods, failed, queued, forgetOk));
    assert MarksOut(m0, failed) == {};
    assert m0 - {} == m0;
  }

  /**
   An attempt is a stretch of a run: whatever the verdicts, from a state that agrees with the
   cache before it a run gets to one that agrees with the cache after it.
  */
  lemma AttemptIsRun(
    c: Cluster, s: State, trace: Trace, info: Infos, failed: Infos, nodes: map<NodeName, NodeInfo>, queued: Queued,
    forgetOk: Uid -> bool, m0: Marks, m: Marks, s0: States, states: States)
    returns (s': State)
    requires Before(c, s, info.Keys, nodes, m0, s0)
    requires TraceOk(trace, info, failed, nodes, c.request, queued, forgetOk, m0, m, s0, states)
    ensures Reaches(c, s, s') && s'.markers == m && s'.pods == states && s'.main == Resting
  {
    match trace
    case Early =>
      EarlyIsRun(c, s, info, failed, queued, forgetOk, m0);
      s' := WithoutPods(s, PodsOut(s.pods, failed, queued, forgetOk));
    case Full(p3, did, m4, s4) =>
      s' := FullIsRun(c, s, p3, did, m4, s4, info, failed, nodes, queued, forgetOk, m0, s0);
  }

  lemma FullIsRun(
    c: Cluster, s: State, p3: Placement, did: Effects, m4: Marks, s4: States, info: Infos, failed: Infos,
    nodes: map<NodeName, NodeInfo>, queued: Queued, forgetOk: Uid -> bool, m0: Marks, s0: States)
    returns (s': State)
    requires Before(c, s, info.Keys, nodes, m0, s0)
    requires TraceOk(Full(p3, did, m4, s4), info, failed, nodes, c.request, queued, forgetOk, m0, Released(m4, failed),
                     s0, Kept(s4, failed, queued, forgetOk))
    ensures Reaches(c, s, s')
    ensures s'.markers == Released(m4, failed) && s'.pods == Kept(s4, failed, queued, forgetOk) && s'.main == Resting
  {
    hide Reaches, NodesAgree, SameNode.AdmissionSound, Clean, Exclusive, PlanIs, NodesWaitTogether, Released, Kept,
         FailureOf, OffNodes, CanFail, FailedHere, Grew, MarksNodes, Kept4, PlanFor;
    PicksPlan(c, s, info, nodes, m0, s0);
    ChecksKept(c, s, info, p3, nodes, m0, s0);
    KeptIsPlan(info, p3, m0);
    SoundWaitsTogether(p3, info, nodes, c.request);
    var kept := Kept4(info, p3);
    var s1 := s.(main := Capacity.Checked(kept));
    MarkingIsRun(c, s1, p3, did.p1, info, did.failedNodes, m4);
    var g := OffNodes(kept, did.failedNodes);
    ReachesThrough(c, s, s1, Admitting(s1, g, m4));
    PlanTasks(g, did.p1, info);
    AssumesLeft(c, s, g, m4, did.left, info, s4);
    var a := Assumed4(s, g, m4, did.left);
    CanFailThere(s, g, m4, did.left, failed);
    FailedAreHere(s, g, m4, did, p3, info, failed, m0, s0, s4);
    RejectingIsRun(c, a, |s.groups| + 1, FailingNodes(g, failed), failed, queued, forgetOk);
    s' := AfterRejection(a, |s.groups| + 1, FailingNodes(g, failed), failed, queued, forgetOk);
    ReachesThrough(c, s, a, s');
  }

  lemma PlanTasks(g: Group, p: Placement, info: Infos)
    requires PlanIs(g, p, info)
    ensures g.Keys == NewcomersAt(p, info, Ready) + NewcomersAt(p, info, Waiting)
    ensures forall u :: u in g ==> u in info && !info[u].assumed && g[u] == info[u].task && g[u].uid == u
  {
  }

  /** An attempt, followed by the state of a run that agrees with the cache. */
  method AttemptInRun(
    binder: Binder, pods: set<Uid>, isPodGroup: bool, minMember: int, everScheduled: bool, env: Verdicts.Env,
    ghost c: Cluster, ghost s: State)
    returns (r: Outcome, unit: BindingUnitInfo, ghost s': State)
    requires binder.QueueOk() && binder.cache.Valid() && pods <= binder.queued.Keys
    requires c.request == binder.cache.request
    requires Inv(c, s) && Before(c, s, pods, binder.cache.nodes, binder.cache.markers, binder.cache.states)
    modifies binder`queued, binder.cache
    ensures binder.QueueOk() && binder.cache.Valid() && binder.queued.Keys == old(binder.queued).Keys
    ensures Reaches(c, s, s') && Inv(c, s')
    ensures s'.markers == binder.cache.markers && s'.pods == binder.cache.states && s'.main == Resting
  {
    hide Reaches, Inv, Before, TraceOk, AttemptOk, BindingUnitInfo.Valid, BinderCache.Valid;
    ghost var nodes, m0, s0 := binder.cache.nodes, binder.cache.markers, binder.cache.states;
    ghost var trace, way;
    r, unit, trace, way := CheckAndBindUnit(binder, pods, isPodGroup, minMember, everScheduled, env);
    FailedListIs(unit);
    s' := AttemptIsRun(c, s, trace, unit.info, unit.failedTasks, nodes, binder.queued, env.forgetOk,
                       m0, binder.cache.markers, s0, binder.cache.states);
    ReachedKeepsInv(c, s, s');
  }
}
