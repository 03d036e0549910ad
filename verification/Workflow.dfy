/**
 The stages of one binding attempt. Verdicts of plugins and API calls are parameters, so
 every contract holds for all of them and for every order in which tasks are visited.
*/
module Workflow {

  import opened BinderTypes
  import opened Placements
  import opened UnitLists
  import opened BindingUnit
  import opened Caches
  import opened SameNode

  /** What a queued pod remembers between attempts. */
  datatype QueuedPod = QueuedPod(reserved: Option<NodeName>, inHandling: bool)

  /** What looking up a victim in the pod lister yields. */
  datatype Lookup = Found | Missing | Broken

  /** The outcome of initialising one newly arrived pod. */
  datatype Arrival = Arrival(skip: bool, initOk: bool, node: NodeName, nominated: Option<set<Uid>>)

  /** Tasks may fail; nothing else happens to the placement. */
  ghost predicate Sunk(p0: Placement, p: Placement) {
    && p.Keys == p0.Keys
    && (forall u :: u in p ==> p[u] == p0[u] || (p[u] == Failed && p0[u] != Ignored))
  }

  ghost function Failing(tasks: set<Uid>, passes: Uid -> bool): set<Uid> {
    set u | u in tasks && !passes(u)
  }

  /** When all pass, nothing moves. */
  lemma NoneFails(p: Placement, all: set<Uid>, done: set<Uid>, passes: Uid -> bool)
    requires done <= all
    ensures (forall u :: u in all ==> passes(u)) ==> Relocate(p, Failing(done, passes), Failed) == p
  {
    if forall u :: u in all ==> passes(u) {
      assert Failing(done, passes) == {};
    }
  }

  lemma NothingFailed(p: Placement, passes: Uid -> bool)
    ensures Relocate(p, Failing({}, passes), Failed) == p
  {
    assert Failing({}, passes) == {};
  }

  lemma OneMoreFailing(p: Placement, done: set<Uid>, u: Uid, passes: Uid -> bool)
    requires u !in done && u in At(p, New)
    ensures
      var was, now := Failing(done, passes), Failing(done + {u}, passes);
      && u in At(Relocate(p, was, Failed), New)
      && (if passes(u) then now == was
          else Relocate(p, now, Failed) == Relocate(Relocate(p, was, Failed), {u}, Failed))
  {
  }

  lemma SunkStep(p0: Placement, p: Placement, s: set<Uid>)
    requires Sunk(p0, p) && s !! At(p, Ignored)
    ensures Sunk(p0, Relocate(p, s, Failed))
  {
    forall u | u in p && u in s
      ensures p0[u] != Ignored
    {
      assert p[u] != Ignored by {
        assert u !in At(p, Ignored);
      }
    }
  }

  lemma SunkKeepsDoom(unit: BindingUnitInfo, p0: Placement, p: Placement)
    requires Sunk(p0, p) && Hopeless(unit, p0)
    ensures Hopeless(unit, p)
  {
    DoomIsStable(p0, p);
  }

  /** Failing everything that is still alive leaves nothing alive and the unit failed. */
  lemma AllSunk(unit: BindingUnitInfo, p0: Placement, p: Placement)
    requires Sunk(p0, p) && Hopeless(unit, p)
    ensures Sunk(p0, Relocate(p, Live(p), Failed))
    ensures Live(Relocate(p, Live(p), Failed)) == {}
    ensures Hopeless(unit, Relocate(p, Live(p), Failed))
  {
    hide Hopeless, Sunk, Live;
    LiveIs(p);
    SunkStep(p0, p, Live(p));
    SunkRefl(p);
    SunkStep(p, p, Live(p));
    SunkKeepsDoom(unit, p, Relocate(p, Live(p), Failed));
    LiveIs(Relocate(p, Live(p), Failed));
  }

  lemma SunkRefl(p: Placement)
    ensures Sunk(p, p)
  {
  }

  lemma LiveIs(p: Placement)
    ensures forall u :: u in Live(p) <==> u in p && p[u] != Failed && p[u] != Ignored
    ensures Live(p) !! At(p, Ignored)
  {
    forall u | u in p && p[u] != Failed && p[u] != Ignored
      ensures u in Live(p)
    {
      assert p[u] == Assumed || p[u] == New || p[u] == Ready || p[u] == Waiting;
    }
  }

  /** What is known of a unit once its pods are sorted. */
  ghost predicate Initialized(p: Placement, info: Infos, queued: map<Uid, QueuedPod>, markers: map<Uid, Uid>) {
    && p.Keys == info.Keys
    && p.Keys <= queued.Keys
    && (forall u :: u in p ==>
          && p[u] != Ready && p[u] != Waiting
          && (p[u] == Assumed <==> queued[u].inHandling)
          && (p[u] == Assumed <==> info[u].assumed)
          && (p[u] == Assumed ==> queued[u].reserved == Some(info[u].task.node))
          && (p[u] == New ==> info[u].task.victims !! markers.Keys)
          && (p[u] != New ==> info[u].task.victims == {}))
  }

  /** The nominated victims that still exist. */
  ghost function Existing(a: Arrival, lookup: Uid -> Lookup): set<Uid> {
    if a.nominated.None? then {} else set v | v in a.nominated.value && lookup(v) == Found
  }

  /** A new pod can be checked: it has a node, and its victims are known, unmarked and nobody else's here. */
  ghost predicate CanStart(a: Arrival, lookup: Uid -> Lookup, markers: map<Uid, Uid>, taken: set<Uid>) {
    && a.initOk && a.node != ""
    && (a.nominated.Some? ==>
          && (forall v :: v in a.nominated.value ==> lookup(v) == Missing || (lookup(v) == Found && v !in markers))
          && Existing(a, lookup) !! taken)
  }

  ghost predicate Skipped(u: Uid, a: Arrival, states: map<Uid, PodState>) {
    a.skip || (u in states && states[u].assumed)
  }

  /** Where each pod was sorted, and why. */
  ghost predicate Sorted(
    p: Placement, info: Infos, victims: set<Uid>, queued: map<Uid, QueuedPod>,
    states: map<Uid, PodState>, markers: map<Uid, Uid>, arrivals: Uid -> Arrival, lookup: Uid -> Lookup)
  {
    forall u :: u in p ==>
      u in queued && u in info &&
      match p[u]
      case Assumed => queued[u].inHandling
      case Ignored => !queued[u].inHandling && Skipped(u, arrivals(u), states)
      case New =>
        && !queued[u].inHandling && !Skipped(u, arrivals(u), states)
        && CanStart(arrivals(u), lookup, markers, {})
        && info[u].task == Task(u, arrivals(u).node, Existing(arrivals(u), lookup))
      case Failed =>
        && !queued[u].inHandling && !Skipped(u, arrivals(u), states)
        && !CanStart(arrivals(u), lookup, markers, victims)
      case _ => false
  }

  lemma OneMoreSorted(
    p: Placement, info: Infos, victims: set<Uid>, queued: map<Uid, QueuedPod>,
    states: map<Uid, PodState>, markers: map<Uid, Uid>, arrivals: Uid -> Arrival, lookup: Uid -> Lookup,
    u: Uid, b: Place, r: CheckResult, victims': set<Uid>)
    requires Sorted(p, info, victims, queued, states, markers, arrivals, lookup) && u !in p && u in queued
    requires victims <= victims'
    requires b == PlaceFor(u, arrivals(u), lookup, queued[u], states, markers, victims)
    requires b == New ==> r.task == Task(u, arrivals(u).node, Existing(arrivals(u), lookup))
    ensures Sorted(p[u := b], info[u := r], victims', queued, states, markers, arrivals, lookup)
  {
  }

  /** Where a pod belongs, given the victims that are taken already. */
  ghost function PlaceFor(
    u: Uid, a: Arrival, lookup: Uid -> Lookup, q: QueuedPod, states: map<Uid, PodState>, markers: map<Uid, Uid>,
    taken: set<Uid>): Place
  {
    if q.inHandling then Assumed
    else if Skipped(u, a, states) then Ignored
    else if CanStart(a, lookup, markers, taken) then New
    else Failed
  }

  /** No pod is a victim of two tasks of the unit. */
  ghost predicate Exclusive(info: Infos) {
    forall u, w :: u in info && w in info && u != w ==> info[u].task.victims !! info[w].task.victims
  }

  lemma InitializedExclusive(
    unit: BindingUnitInfo, p: Placement, info: Infos, queued: map<Uid, QueuedPod>, markers: map<Uid, Uid>)
    requires unit.Valid() && p == unit.place && info == unit.info
    requires Initialized(p, info, queued, markers)
    ensures Exclusive(info)
  {
    hide Agrees;
    var m := Fresh(p, info);
    forall u, w | u in info && w in info && u != w
      ensures info[u].task.victims !! info[w].task.victims
    {
      assert p[u] == New ==> u in m && m[u] == info[u].task;
      assert p[w] == New ==> w in m && m[w] == info[w].task;
    }
  }

  lemma OneMore(
    p: Placement, info: Infos, queued: map<Uid, QueuedPod>, markers: map<Uid, Uid>, u: Uid, b: Place, r: CheckResult)
    requires Initialized(p, info, queued, markers) && u !in p && u in queued
    requires b != Ready && b != Waiting
    requires b == Assumed <==> queued[u].inHandling
    requires b == Assumed <==> r.assumed
    requires b == Assumed ==> queued[u].reserved == Some(r.task.node)
    requires b == New ==> r.task.victims !! markers.Keys
    requires b != New ==> r.task.victims == {}
    ensures Initialized(p[u := b], info[u := r], queued, markers)
  {
  }

  lemma NothingYet(queued: map<Uid, QueuedPod>, markers: map<Uid, Uid>)
    ensures Initialized(map[], map[], queued, markers)
  {
  }

  lemma NothingSorted(
    queued: map<Uid, QueuedPod>, states: map<Uid, PodState>, markers: map<Uid, Uid>,
    arrivals: Uid -> Arrival, lookup: Uid -> Lookup, victims: set<Uid>)
    ensures Sorted(map[], map[], victims, queued, states, markers, arrivals, lookup)
  {
  }

  /** After the preemption check no task is among the assumed ones; new tasks stay or fail. */
  ghost predicate AfterPreemption(p0: Placement, p: Placement) {
    && p.Keys == p0.Keys
    && (forall u :: u in p ==>
          match p0[u]
          case Assumed => p[u] == Ready || p[u] == Waiting || p[u] == Failed
          case New => p[u] == New || p[u] == Failed
          case Ignored => p[u] == Ignored
          case b => p[u] == b || p[u] == Failed)
  }

  lemma SunkIsAfter(p0: Placement, p: Placement)
    requires Sunk(p0, p) && Live(p) == {}
    ensures AfterPreemption(p0, p)
  {
    LiveIs(p);
  }

  /**
   Where the preemption check leaves each task of a unit that goes on: an assumed preemptor that
   ran out of time fails, the others wait together or are ready together; a new task fails if
   the unit preempts and its check fails.
  */
  ghost function Decision(
    p0: Placement, info: Infos,
    isPreemptor: Uid -> bool, complete: Uid -> bool, timedOut: Uid -> bool, preemptOk: Uid -> bool): Placement
  {
    var pending := InProgress(At(p0, Assumed), isPreemptor, complete, timedOut);
    map u | u in p0 ::
      match p0[u]
      case Assumed =>
        if isPreemptor(u) && !complete(u) && timedOut(u) then Failed else if pending then Waiting else Ready
      case New => if Preempts(p0, info) && !preemptOk(u) then Failed else New
      case b => b
  }

  /** Some new task has victims. */
  ghost predicate Preempts(p0: Placement, info: Infos) {
    exists u :: u in At(p0, New) && u in info && info[u].task.victims != {}
  }

  /** Where the topology check leaves each task of a unit that goes on. */
  ghost function Topology(p: Placement, nodeKnown: Uid -> bool, topologyOk: Uid -> bool): Placement {
    map u | u in p :: if p[u] == New && !(nodeKnown(u) && topologyOk(u)) then Failed else p[u]
  }

  lemma TopologyIs(p: Placement, nodeKnown: Uid -> bool, topologyOk: Uid -> bool, passes: Uid -> bool)
    requires forall u :: passes(u) <==> nodeKnown(u) && topologyOk(u)
    ensures Topology(p, nodeKnown, topologyOk) == Relocate(p, Failing(At(p, New), passes), Failed)
  {
  }

  /** A unit that fails part of the way fails all the way. */
  lemma MoreFail(unit: BindingUnitInfo, p: Placement, some: set<Uid>, all: set<Uid>)
    requires Hopeless(unit, Relocate(p, some, Failed)) && some <= all && all !! At(p, Ignored)
    ensures Hopeless(unit, Relocate(p, all, Failed))
  {
    hide Live;
    DoomIsStable(Relocate(p, some, Failed), Relocate(p, all, Failed));
  }

  /** A unit that has failed before all its new tasks were checked fails also with all of them. */
  lemma FailsInTheEnd(unit: BindingUnitInfo, p0: Placement, all: set<Uid>, done: set<Uid>, passes: Uid -> bool)
    requires all == At(p0, New) && done <= all && Hopeless(unit, Relocate(p0, Failing(done, passes), Failed))
    ensures Hopeless(unit, Relocate(p0, Failing(all, passes), Failed))
    ensures Hopeless(unit, p0) || exists u :: u in all && !passes(u)
  {
    hide Hopeless, Live;
    SomeFailing(all, done, passes);
    NewNotIgnored(p0, Failing(all, passes));
    MoreFail(unit, p0, Failing(done, passes), Failing(all, passes));
    NoneFails(p0, all, done, passes);
  }

  lemma NewNotIgnored(p: Placement, s: set<Uid>)
    requires s <= At(p, New) || s <= At(p, Assumed)
    ensures s !! At(p, Ignored)
  {
  }

  lemma SomeFailing(all: set<Uid>, done: set<Uid>, passes: Uid -> bool)
    requires done <= all
    ensures Failing(done, passes) <= Failing(all, passes) <= all
  {
  }

  lemma MovedOn(p0: Placement, p1: Placement, p2: Placement, p3: Placement, b: Place)
    requires Sunk(p0, p1) && p2 == Relocate(p1, At(p1, Assumed), b) && Sunk(p2, p3)
    requires b == Ready || b == Waiting
    ensures AfterPreemption(p0, p3)
  {
    forall u | u in p0
      ensures p0[u] == Assumed ==> p3[u] == b || p3[u] == Failed
    {
      assert p1[u] == Assumed ==> u in At(p1, Assumed);
    }
  }

  /** The assumed preemptors whose victims are still there after the time they had. */
  ghost function Expired(
    tasks: set<Uid>, isPreemptor: Uid -> bool, complete: Uid -> bool, timedOut: Uid -> bool): set<Uid>
  {
    set u | u in tasks && isPreemptor(u) && !complete(u) && timedOut(u)
  }

  /** Some assumed preemptor still has time for its victims to go. */
  ghost predicate InProgress(tasks: set<Uid>, isPreemptor: Uid -> bool, complete: Uid -> bool, timedOut: Uid -> bool) {
    exists u :: u in tasks && isPreemptor(u) && !complete(u) && !timedOut(u)
  }

  ghost predicate SomePreemptor(tasks: set<Uid>, isPreemptor: Uid -> bool) {
    exists u :: u in tasks && isPreemptor(u)
  }

  lemma NoneYet(p: Placement, isPreemptor: Uid -> bool, complete: Uid -> bool, timedOut: Uid -> bool)
    ensures Relocate(p, Expired({}, isPreemptor, complete, timedOut), Failed) == p
    ensures !InProgress({}, isPreemptor, complete, timedOut) && !SomePreemptor({}, isPreemptor)
  {
    assert Expired({}, isPreemptor, complete, timedOut) == {};
  }

  lemma OneMoreChecked(
    p: Placement, done: set<Uid>, u: Uid, isPreemptor: Uid -> bool, complete: Uid -> bool, timedOut: Uid -> bool)
    requires u !in done && u in At(p, Assumed)
    ensures
      var was, now := Expired(done, isPreemptor, complete, timedOut), Expired(done + {u}, isPreemptor, complete, timedOut);
      if isPreemptor(u) && !complete(u) && timedOut(u)
      then Relocate(p, now, Failed) == Relocate(Relocate(p, was, Failed), {u}, Failed)
      else now == was
    ensures InProgress(done + {u}, isPreemptor, complete, timedOut) <==>
      InProgress(done, isPreemptor, complete, timedOut) || (isPreemptor(u) && !complete(u) && !timedOut(u))
    ensures
      var q := Relocate(p, Expired(done, isPreemptor, complete, timedOut), Failed);
      u in At(q, Assumed) && {u} !! At(q, Ignored)
  {
  }

  lemma NoneExpired(
    p: Placement, all: set<Uid>, done: set<Uid>, isPreemptor: Uid -> bool, complete: Uid -> bool, timedOut: Uid -> bool)
    requires done <= all
    ensures Expired(all, isPreemptor, complete, timedOut) == {} ==>
      Relocate(p, Expired(done, isPreemptor, complete, timedOut), Failed) == p
  {
    assert Expired(done, isPreemptor, complete, timedOut) <= Expired(all, isPreemptor, complete, timedOut);
  }

  lemma SomeExpired(
    all: set<Uid>, done: set<Uid>, isPreemptor: Uid -> bool, complete: Uid -> bool, timedOut: Uid -> bool)
    requires done <= all
    ensures Expired(done, isPreemptor, complete, timedOut) <= Expired(all, isPreemptor, complete, timedOut) <= all
  {
  }

  /** A unit that has failed before all its assumed tasks were checked fails also with all of them. */
  lemma ExpiresInTheEnd(
    unit: BindingUnitInfo, p0: Placement, all: set<Uid>, done: set<Uid>,
    isPreemptor: Uid -> bool, complete: Uid -> bool, timedOut: Uid -> bool)
    requires all == At(p0, Assumed) && done <= all
    requires Hopeless(unit, Relocate(p0, Expired(done, isPreemptor, complete, timedOut), Failed))
    ensures Hopeless(unit, Relocate(p0, Expired(all, isPreemptor, complete, timedOut), Failed))
    ensures Hopeless(unit, p0) || Expired(all, isPreemptor, complete, timedOut) != {}
  {
    hide Hopeless, Live;
    SomeExpired(all, done, isPreemptor, complete, timedOut);
    NewNotIgnored(p0, Expired(all, isPreemptor, complete, timedOut));
    MoreFail(unit, p0, Expired(done, isPreemptor, complete, timedOut), Expired(all, isPreemptor, complete, timedOut));
    NoneExpired(p0, all, done, isPreemptor, complete, timedOut);
  }

  lemma SameSize(p: Placement, s: set<Uid>, b: Place)
    ensures Relocate(p, s, b).Keys == p.Keys && |Relocate(p, s, b)| == |p|
  {
    var q := Relocate(p, s, b);
    assert q.Keys == p.Keys && |q.Keys| == |q| && |p.Keys| == |p|;
  }

  /** The new tasks are checked only if there are victims. */
  ghost function CheckedNew(p: Placement, info: Infos, preemptOk: Uid -> bool): Placement {
    if Preempts(p, info) then Relocate(p, Failing(At(p, New), preemptOk), Failed) else p
  }

  lemma ExpiredDecides(
    unit: BindingUnitInfo, p0: Placement, info: Infos,
    isPreemptor: Uid -> bool, complete: Uid -> bool, timedOut: Uid -> bool, preemptOk: Uid -> bool)
    requires Hopeless(unit, Relocate(p0, Expired(At(p0, Assumed), isPreemptor, complete, timedOut), Failed))
    ensures Hopeless(unit, Decision(p0, info, isPreemptor, complete, timedOut, preemptOk))
  {
    hide Live, InProgress, Preempts;
    var p1 := Relocate(p0, Expired(At(p0, Assumed), isPreemptor, complete, timedOut), Failed);
    var p := Decision(p0, info, isPreemptor, complete, timedOut, preemptOk);
    forall u | u in p1
      ensures p1[u] == Failed ==> p[u] == Failed
      ensures p1[u] == Ignored ==> p[u] == Ignored
    {
    }
    DoomIsStable(p1, p);
  }

  lemma StagesDecide(
    p0: Placement, p1: Placement, p2: Placement, p3: Placement, info: Infos,
    isPreemptor: Uid -> bool, complete: Uid -> bool, timedOut: Uid -> bool, preemptOk: Uid -> bool)
    requires p1 == Relocate(p0, Expired(At(p0, Assumed), isPreemptor, complete, timedOut), Failed)
    requires p2 == Relocate(p1, At(p1, Assumed),
      if InProgress(At(p0, Assumed), isPreemptor, complete, timedOut) then Waiting else Ready)
    requires p3 == CheckedNew(p2, info, preemptOk)
    ensures p3 == Decision(p0, info, isPreemptor, complete, timedOut, preemptOk)
  {
    hide InProgress, Preempts, Expired, At;
    SameNew(p0, p1, p2, info, isPreemptor, complete, timedOut);
    forall u | u in p0
      ensures p3[u] == Decision(p0, info, isPreemptor, complete, timedOut, preemptOk)[u]
    {
      StageOf(p0, p1, p2, u, isPreemptor, complete, timedOut);
      NewAt(p2, u, preemptOk);
    }
    assert p3.Keys == p0.Keys;
  }

  lemma NewAt(p: Placement, u: Uid, preemptOk: Uid -> bool)
    requires u in p
    ensures u in Failing(At(p, New), preemptOk) <==> p[u] == New && !preemptOk(u)
  {
  }

  lemma SameNew(
    p0: Placement, p1: Placement, p2: Placement, info: Infos,
    isPreemptor: Uid -> bool, complete: Uid -> bool, timedOut: Uid -> bool)
    requires p1 == Relocate(p0, Expired(At(p0, Assumed), isPreemptor, complete, timedOut), Failed)
    requires p2 == Relocate(p1, At(p1, Assumed), Waiting) || p2 == Relocate(p1, At(p1, Assumed), Ready)
    ensures Preempts(p2, info) <==> Preempts(p0, info)
  {
    assert At(p2, New) == At(p0, New);
  }

  lemma StageOf(
    p0: Placement, p1: Placement, p2: Placement, u: Uid,
    isPreemptor: Uid -> bool, complete: Uid -> bool, timedOut: Uid -> bool)
    requires u in p0 && p1 == Relocate(p0, Expired(At(p0, Assumed), isPreemptor, complete, timedOut), Failed)
    requires p2 == Relocate(p1, At(p1, Assumed), Waiting) || p2 == Relocate(p1, At(p1, Assumed), Ready)
    ensures u in p2
    ensures p0[u] == Assumed && isPreemptor(u) && !complete(u) && timedOut(u) ==> p2[u] == Failed
    ensures p0[u] == Assumed && !(isPreemptor(u) && !complete(u) && timedOut(u)) ==> u in At(p1, Assumed)
    ensures p0[u] != Assumed ==> p2[u] == p0[u]
  {
  }

  /** When no preemptor ran out of time, moving the assumed tasks on neither fails one nor adds one. */
  lemma MovingOnKeepsHope(
    unit: BindingUnitInfo, p0: Placement, p1: Placement, p2: Placement,
    isPreemptor: Uid -> bool, complete: Uid -> bool, timedOut: Uid -> bool)
    requires p1 == Relocate(p0, Expired(At(p0, Assumed), isPreemptor, complete, timedOut), Failed)
    requires p2 == Relocate(p1, At(p1, Assumed), Waiting) || p2 == Relocate(p1, At(p1, Assumed), Ready)
    ensures Expired(At(p0, Assumed), isPreemptor, complete, timedOut) == {} ==>
      At(p2, New) == At(p0, New) && (Hopeless(unit, p2) <==> Hopeless(unit, p0))
  {
    if Expired(At(p0, Assumed), isPreemptor, complete, timedOut) == {} {
      assert p1 == p0;
      SameLive(p0, p2);
    }
  }

  lemma SameLive(p: Placement, p': Placement)
    requires p' == Relocate(p, At(p, Assumed), Waiting) || p' == Relocate(p, At(p, Assumed), Ready)
    ensures Live(p') == Live(p) && At(p', Failed) == At(p, Failed) && At(p', New) == At(p, New)
  {
    LiveIs(p);
    LiveIs(p');
  }

  class Binder {
    const cache: BinderCache
    var queued: map<Uid, QueuedPod>

    /** A pod whose handling goes on has a reserved pod. */
    ghost predicate QueueOk()
      reads this
    {
      forall u :: u in queued && queued[u].inHandling ==> queued[u].reserved.Some?
    }

    constructor (cache: BinderCache)
      ensures this.cache == cache && queued == map[] && QueueOk()
    {
      this.cache, queued := cache, map[];
    }

    /** The victims that still exist; refuses a victim that is marked or cannot be looked up. */
    method GetVictimsToPreempt(victimPods: set<Uid>, lookup: Uid -> Lookup) returns (victims: Option<set<Uid>>)
      ensures victims.Some? <==>
        forall v :: v in victimPods ==> lookup(v) == Missing || (lookup(v) == Found && v !in cache.markers)
      ensures victims.Some? ==> victims.value == set v | v in victimPods && lookup(v) == Found
    {
      var todo, found: set<Uid> := victimPods, {};
      while todo != {}
        invariant todo <= victimPods
        invariant forall v :: v in victimPods - todo ==>
          lookup(v) == Missing || (lookup(v) == Found && v !in cache.markers)
        invariant found == set v | v in victimPods - todo && lookup(v) == Found
      {
        var v :| v in todo;
        match lookup(v) {
          case Missing =>
          case Broken =>
            return None;
          case Found =>
            if v in cache.markers {
              return None;
            }
            found := found + {v};
        }
        todo := todo - {v};
      }
      return Some(found);
    }

    /** Initialises one new pod: the task to check, or nothing together with how far it got. */
    method InitializeTask(unit: BindingUnitInfo, u: Uid, a: Arrival, lookup: Uid -> Lookup)
      returns (ok: bool, t: Task)
      ensures ok <==> CanStart(a, lookup, cache.markers, unit.allVictims)
      ensures ok ==> t == Task(u, a.node, Existing(a, lookup))
      ensures ok ==> t.node != "" && t.victims !! unit.allVictims && t.victims !! cache.markers.Keys
      ensures !ok ==> t.uid == u && t.victims == {}
    {
      t := Task(u, "", {});
      if !a.initOk || a.node == "" {
        return false, t;
      }
      t := t.(node := a.node);
      if a.nominated.Some? {
        var victims := GetVictimsToPreempt(a.nominated.value, lookup);
        if victims.None? || victims.value * unit.allVictims != {} {
          return false, t;
        }
        t := t.(victims := victims.value);
        assert forall v :: v in t.victims ==> v !in cache.markers;
        assert forall v :: v in t.victims && v in unit.allVictims ==> v in victims.value * unit.allVictims;
      }
      return true, t;
    }

    /** Sorts one pod of the unit into the assumed, ignored, failed or new tasks. */
    method InitializePod(unit: BindingUnitInfo, u: Uid, a: Arrival, lookup: Uid -> Lookup)
      requires QueueOk() && unit.Valid() && u in queued && u !in unit.place
      requires Initialized(unit.place, unit.info, queued, cache.markers)
      modifies unit
      ensures unit.Valid() && unit.place.Keys == old(unit.place).Keys + {u}
      ensures Initialized(unit.place, unit.info, queued, cache.markers)
      ensures unit.place == old(unit.place)[u :=
        PlaceFor(u, a, lookup, queued[u], cache.states, cache.markers, old(unit.allVictims))]
      ensures u in unit.info && unit.info == old(unit.info)[u := unit.info[u]]
      ensures unit.place[u] == New ==> unit.info[u].task == Task(u, a.node, Existing(a, lookup))
      ensures old(unit.allVictims) <= unit.allVictims
    {
      hide Consistent, Initialized;
      ghost var p, info := unit.place, unit.info;
      if queued[u].inHandling {
        unit.AddAssumedTask(u, queued[u].reserved.value);
      } else if a.skip || (u in cache.states && cache.states[u].assumed) {
        unit.AddIgnoredTask(u);
      } else {
        var ok, t := InitializeTask(unit, u, a, lookup);
        if ok {
          unit.AddNewTask(t);
        } else {
          unit.AddFailedArrival(t);
        }
      }
      OneMore(p, info, queued, cache.markers, u, unit.place[u], unit.info[u]);
    }

    /** One more pod of the unit is sorted. */
    method SortPod(unit: BindingUnitInfo, u: Uid, arrivals: Uid -> Arrival, lookup: Uid -> Lookup)
      requires QueueOk() && unit.Valid() && u in queued && u !in unit.place
      requires Initialized(unit.place, unit.info, queued, cache.markers)
      requires Sorted(unit.place, unit.info, unit.allVictims, queued, cache.states, cache.markers, arrivals, lookup)
      modifies unit
      ensures unit.Valid() && unit.place.Keys == old(unit.place).Keys + {u}
      ensures Initialized(unit.place, unit.info, queued, cache.markers)
      ensures Sorted(unit.place, unit.info, unit.allVictims, queued, cache.states, cache.markers, arrivals, lookup)
    {
      hide Consistent, Initialized, Sorted, PlaceFor, CanStart, Existing, Skipped;
      ghost var p, info, victims := unit.place, unit.info, unit.allVictims;
      InitializePod(unit, u, arrivals(u), lookup);
      ghost var b, r := unit.place[u], unit.info[u];
      OneMoreSorted(p, info, victims, queued, cache.states, cache.markers, arrivals, lookup, u, b, r, unit.allVictims);
      assert unit.place == p[u := b] && unit.info == info[u := r];
    }

    /** Sorts pods that the unit does not hold yet, in any order. */
    method SortPods(unit: BindingUnitInfo, pods: set<Uid>, arrivals: Uid -> Arrival, lookup: Uid -> Lookup)
      requires QueueOk() && unit.Valid() && pods <= queued.Keys && unit.place.Keys !! pods
      requires Initialized(unit.place, unit.info, queued, cache.markers)
      requires Sorted(unit.place, unit.info, unit.allVictims, queued, cache.states, cache.markers, arrivals, lookup)
      modifies unit
      ensures unit.Valid() && unit.place.Keys == old(unit.place).Keys + pods
      ensures Initialized(unit.place, unit.info, queued, cache.markers)
      ensures Sorted(unit.place, unit.info, unit.allVictims, queued, cache.states, cache.markers, arrivals, lookup)
    {
      hide Consistent, Initialized, Sorted, PlaceFor, CanStart, Existing, Skipped, Exclusive;
      ghost var held := unit.place.Keys;
      var todo := pods;
      while todo != {}
        invariant unit.Valid() && todo <= pods && unit.place.Keys == held + (pods - todo)
        invariant Initialized(unit.place, unit.info, queued, cache.markers)
        invariant Sorted(unit.place, unit.info, unit.allVictims, queued, cache.states, cache.markers, arrivals, lookup)
      {
        var u :| u in todo;
        SortPod(unit, u, arrivals, lookup);
        assert held + (pods - (todo - {u})) == held + (pods - todo) + {u};
        todo := todo - {u};
      }
    }

    /** Sorts all pods of a unit, in any order. */
    method InitializeUnit(
      pods: set<Uid>, isPodGroup: bool, minMember: int, everScheduled: bool,
      arrivals: Uid -> Arrival, lookup: Uid -> Lookup)
      returns (unit: BindingUnitInfo)
      requires QueueOk() && pods <= queued.Keys
      ensures fresh(unit) && unit.Valid() && unit.Complete() && unit.place.Keys == pods
      ensures unit.isPodGroup == isPodGroup && unit.minMember == minMember && unit.everScheduled == everScheduled
      ensures Initialized(unit.place, unit.info, queued, cache.markers)
      ensures Sorted(unit.place, unit.info, unit.allVictims, queued, cache.states, cache.markers, arrivals, lookup)
    {
      hide Consistent, Initialized, Sorted, PlaceFor, CanStart, Existing, Skipped, Exclusive;
      unit := new BindingUnitInfo(isPodGroup, minMember, |pods|, everScheduled);
      NothingYet(queued, cache.markers);
      NothingSorted(queued, cache.states, cache.markers, arrivals, lookup, unit.allVictims);
      SortPods(unit, pods, arrivals, lookup);
      assert |unit.place| == |unit.place.Keys|;
    }

    /** If the unit has failed, everything that is still alive fails with it. */
    method FailUnitIfHopeless(unit: BindingUnitInfo, ghost p0: Placement) returns (failed: bool)
      requires unit.Valid() && unit.Complete() && Sunk(p0, unit.place)
      modifies unit
      ensures unit.Valid() && unit.Complete() && unit.info == old(unit.info) && Sunk(p0, unit.place)
      ensures failed <==> old(unit.Doomed())
      ensures failed ==> unit.Doomed() && Live(unit.place) == {}
      ensures !failed ==> unit.place == old(unit.place)
    {
      hide Consistent, Hopeless, Sunk, Live;
      failed := unit.IsUnitFailed();
      if failed {
        AllSunk(unit, p0, unit.place);
        assert |unit.place.Keys| == |unit.place|;
        unit.MoveAllTasksToFailedList();
        assert unit.place.Keys == old(unit.place).Keys;
        assert |unit.place.Keys| == |unit.place|;
      }
    }

    /** Lets every task of `todo` that does not pass fail, until the unit fails. */
    method CheckNewTasks(unit: BindingUnitInfo, passes: Uid -> bool) returns (failed: bool)
      requires unit.Valid() && unit.Complete()
      modifies unit
      ensures unit.Valid() && unit.Complete() && unit.info == old(unit.info)
      ensures Sunk(old(unit.place), unit.place)
      ensures failed ==> unit.Doomed() && Live(unit.place) == {}
      ensures !failed ==> unit.place == Relocate(old(unit.place), Failing(At(old(unit.place), New), passes), Failed)
      ensures failed ==> Hopeless(unit, Relocate(old(unit.place), Failing(At(old(unit.place), New), passes), Failed))
      ensures !failed && At(old(unit.place), New) != {} ==> !unit.Doomed()
      ensures !old(unit.Doomed()) && (forall u :: u in At(old(unit.place), New) ==> passes(u)) ==>
        !failed && unit.place == old(unit.place)
    {
      hide Consistent, Hopeless, Sunk, Live, Failing, Relocate, At;
      ghost var p0 := unit.place;
      ghost var all := At(p0, New);
      unit.AllNewUidsAre();
      SunkRefl(p0);
      var todo := unit.AllNewUids();
      NothingFailed(p0, passes);
      ghost var done, tested := {}, false;
      while todo != {}
        invariant unit.Valid() && unit.Complete() && unit.info == old(unit.info) && Sunk(p0, unit.place)
        invariant todo + done == all && todo !! done
        invariant unit.place == Relocate(p0, Failing(done, passes), Failed)
        invariant tested ==> !unit.Doomed()
        invariant !tested ==> todo == all
      {
        var u :| u in todo;
        failed := CheckOneNew(unit, u, passes, p0, done);
        todo, done, tested := todo - {u}, done + {u}, true;
        if failed {
          FailsInTheEnd(unit, p0, all, done, passes);
          return true;
        }
      }
      assert done == all;
      NoneFails(p0, all, all, passes);
      return false;
    }

    /** One more new task, and the unit with it if that is one too many. */
    method CheckOneNew(unit: BindingUnitInfo, u: Uid, passes: Uid -> bool, ghost p0: Placement, ghost done: set<Uid>)
      returns (failed: bool)
      requires unit.Valid() && unit.Complete() && Sunk(p0, unit.place)
      requires unit.place == Relocate(p0, Failing(done, passes), Failed) && u in At(p0, New) && u !in done
      modifies unit
      ensures unit.Valid() && unit.Complete() && unit.info == old(unit.info) && Sunk(p0, unit.place)
      ensures failed <==> unit.Doomed()
      ensures failed <==> Hopeless(unit, Relocate(p0, Failing(done + {u}, passes), Failed))
      ensures failed ==> Live(unit.place) == {}
      ensures !failed ==> unit.place == Relocate(p0, Failing(done + {u}, passes), Failed)
    {
      hide Consistent, Hopeless, Sunk, Live, Failing, Relocate, At;
      OneMoreFailing(p0, done, u, passes);
      if !passes(u) {
        FailOneNew(unit, u, p0);
      }
      failed := FailUnitIfHopeless(unit, p0);
    }

    /** Fails one new task. */
    method FailOneNew(unit: BindingUnitInfo, u: Uid, ghost p0: Placement)
      requires unit.Valid() && unit.Complete() && u in At(unit.place, New) && Sunk(p0, unit.place)
      modifies unit
      ensures unit.Valid() && unit.Complete() && unit.info == old(unit.info) && Sunk(p0, unit.place)
      ensures unit.place == Relocate(old(unit.place), {u}, Failed)
    {
      hide Consistent, Sunk;
      unit.KnownInfo();
      var t := unit.NewTaskOf(u);
      SunkStep(p0, unit.place, {u});
      unit.AddFailedTask(t, false);
      assert unit.place.Keys == old(unit.place).Keys;
      assert |unit.place.Keys| == |unit.place|;
    }

    /**
     Cross-node preemption. Assumed preemptors whose victims are gone go on; one that ran out
     of time fails; if any is still waiting, all assumed tasks wait, otherwise all are ready.
    */
    method CheckCrossNodePreemptionForUnit(
      unit: BindingUnitInfo, isPreemptor: Uid -> bool, complete: Uid -> bool, timedOut: Uid -> bool,
      preemptOk: Uid -> bool)
      returns (failed: bool)
      requires unit.Valid() && unit.Complete()
      modifies unit
      ensures unit.Valid() && unit.Complete() && unit.info == old(unit.info)
      ensures unit.place.Keys == old(unit.place).Keys
      ensures failed ==> unit.Doomed() && Live(unit.place) == {}
      ensures AfterPreemption(old(unit.place), unit.place)
      ensures
        var decided := Decision(old(unit.place), unit.info, isPreemptor, complete, timedOut, preemptOk);
        && (unit.Doomed() <==> Hopeless(unit, decided))
        && (!unit.Doomed() ==> unit.place == decided)
      ensures
        && !old(unit.Doomed()) && Expired(At(old(unit.place), Assumed), isPreemptor, complete, timedOut) == {}
        && (forall u :: u in At(old(unit.place), New) ==> preemptOk(u))
        ==> !failed
    {
      hide Consistent, Hopeless, Sunk, Live, AfterPreemption, Decision, Expired, InProgress, Relocate, SomePreemptor;
      ghost var p0 := unit.place;
      var anyInProgress;
      failed, anyInProgress := CheckAssumedTasks(unit, isPreemptor, complete, timedOut);
      if failed {
        SunkIsAfter(old(unit.place), unit.place);
        ExpiredDecides(unit, p0, unit.info, isPreemptor, complete, timedOut, preemptOk);
        return;
      }
      ghost var p1 := unit.place;
      if anyInProgress {
        unit.MoveAllAssumedTasksToWaitingList();
      } else {
        unit.MoveAllAssumedTasksToReadyList();
      }
      ghost var p2 := unit.place;
      SameSize(p1, At(p1, Assumed), if anyInProgress then Waiting else Ready);
      MovingOnKeepsHope(unit, old(unit.place), p1, p2, isPreemptor, complete, timedOut);
      unit.VictimsAre();
      if unit.allVictims != {} {
        failed := CheckNewTasks(unit, preemptOk);
      } else {
        SunkRefl(unit.place);
      }
      StagesDecide(p0, p1, p2, CheckedNew(p2, unit.info, preemptOk), unit.info, isPreemptor, complete, timedOut, preemptOk);
      MovedOn(old(unit.place), p1, p2, unit.place, if anyInProgress then Waiting else Ready);
    }

    /** The assumed preemptors, one by one. */
    method CheckAssumedTasks(
      unit: BindingUnitInfo, isPreemptor: Uid -> bool, complete: Uid -> bool, timedOut: Uid -> bool)
      returns (failed: bool, anyInProgress: bool)
      requires unit.Valid() && unit.Complete()
      modifies unit
      ensures unit.Valid() && unit.Complete() && unit.info == old(unit.info)
      ensures Sunk(old(unit.place), unit.place)
      ensures failed ==> unit.Doomed() && Live(unit.place) == {}
      ensures !failed ==>
        unit.place == Relocate(old(unit.place), Expired(At(old(unit.place), Assumed), isPreemptor, complete, timedOut), Failed)
      ensures !failed ==>
        (anyInProgress <==> InProgress(At(old(unit.place), Assumed), isPreemptor, complete, timedOut))
      ensures failed ==> Hopeless(unit,
        Relocate(old(unit.place), Expired(At(old(unit.place), Assumed), isPreemptor, complete, timedOut), Failed))
      ensures !failed && SomePreemptor(At(old(unit.place), Assumed), isPreemptor) ==> !unit.Doomed()
      ensures !old(unit.Doomed()) && Expired(At(old(unit.place), Assumed), isPreemptor, complete, timedOut) == {} ==> !failed
    {
      hide *;
      unit.AssumedAre();
      unit.DoomedIs();
      ghost var p0 := unit.place;
      ghost var all := At(p0, Assumed);
      SunkRefl(p0);
      var todo := unit.assumedTasks.Keys;
      anyInProgress := false;
      NoneYet(p0, isPreemptor, complete, timedOut);
      ghost var done := {};
      while todo != {}
        invariant unit.Valid() && unit.Complete() && unit.info == old(unit.info) && Sunk(p0, unit.place)
        invariant todo + done == all && todo !! done
        invariant forall u :: u in todo ==> u in unit.info && unit.info[u].assumed
        invariant unit.place == Relocate(p0, Expired(done, isPreemptor, complete, timedOut), Failed)
        invariant anyInProgress <==> InProgress(done, isPreemptor, complete, timedOut)
        invariant SomePreemptor(done, isPreemptor) ==> !unit.Doomed()
      {
        var u :| u in todo;
        var waits;
        failed, waits := CheckOneAssumed(unit, u, isPreemptor, complete, timedOut, p0, done);
        anyInProgress := anyInProgress || waits;
        todo, done := todo - {u}, done + {u};
        if failed {
          ExpiresInTheEnd(unit, p0, all, done, isPreemptor, complete, timedOut);
          return;
        }
      }
      assert done == all;
      failed := false;
    }

    /** One more assumed task: a preemptor goes on, waits for its victims, or fails and the unit perhaps with it. */
    method CheckOneAssumed(
      unit: BindingUnitInfo, u: Uid, isPreemptor: Uid -> bool, complete: Uid -> bool, timedOut: Uid -> bool,
      ghost p0: Placement, ghost done: set<Uid>)
      returns (failed: bool, waits: bool)
      requires unit.Valid() && unit.Complete() && Sunk(p0, unit.place) && u in unit.info && unit.info[u].assumed
      requires unit.place == Relocate(p0, Expired(done, isPreemptor, complete, timedOut), Failed)
      requires u in At(p0, Assumed) && u !in done
      modifies unit
      ensures unit.Valid() && unit.Complete() && unit.info == old(unit.info) && Sunk(p0, unit.place)
      ensures failed ==> isPreemptor(u) && unit.Doomed() && Live(unit.place) == {}
      ensures failed ==> Hopeless(unit, Relocate(p0, Expired(done + {u}, isPreemptor, complete, timedOut), Failed))
      ensures !failed ==>
        && unit.place == Relocate(p0, Expired(done + {u}, isPreemptor, complete, timedOut), Failed)
        && (old(SomePreemptor(done, isPreemptor) ==> !unit.Doomed()) ==>
              (SomePreemptor(done + {u}, isPreemptor) ==> !unit.Doomed()))
      ensures InProgress(done + {u}, isPreemptor, complete, timedOut) <==>
        InProgress(done, isPreemptor, complete, timedOut) || waits
    {
      hide Consistent, Hopeless, Sunk, Live, Expired, InProgress, Relocate, AssumedAgrees;
      OneMoreChecked(p0, done, u, isPreemptor, complete, timedOut);
      failed, waits := false, false;
      if isPreemptor(u) {
        if !complete(u) {
          if timedOut(u) {
            SunkStep(p0, unit.place, {u});
            unit.AddFailedTask(Task(u, "", {}), true);
            SameSize(p0, Expired(done, isPreemptor, complete, timedOut), Failed);
            SameSize(p0, Expired(done + {u}, isPreemptor, complete, timedOut), Failed);
          } else {
            waits := true;
          }
        }
        failed := FailUnitIfHopeless(unit, p0);
      }
    }

    /** Cross-node topology: a new task fails if its node is unknown or its topology check does. */
    method CheckCrossNodeTopologyForUnit(unit: BindingUnitInfo, nodeKnown: Uid -> bool, topologyOk: Uid -> bool)
      returns (failed: bool)
      requires unit.Valid() && unit.Complete()
      modifies unit
      ensures unit.Valid() && unit.Complete() && unit.info == old(unit.info)
      ensures Sunk(old(unit.place), unit.place)
      ensures failed ==> unit.Doomed() && Live(unit.place) == {}
      ensures
        var checked := Topology(old(unit.place), nodeKnown, topologyOk);
        && (unit.Doomed() <==> Hopeless(unit, checked))
        && (!unit.Doomed() ==> unit.place == checked)
      ensures At(old(unit.place), New) != {} ==> (failed <==> unit.Doomed())
      ensures !old(unit.Doomed()) && (forall u :: u in At(old(unit.place), New) ==> nodeKnown(u) && topologyOk(u)) ==>
        !failed && unit.place == old(unit.place)
    {
      hide Consistent, Hopeless, Sunk, Live, Topology;
      var passes := (u: Uid) => nodeKnown(u) && topologyOk(u);
      TopologyIs(unit.place, nodeKnown, topologyOk, passes);
      failed := CheckNewTasks(unit, passes);
    }
  }
}
