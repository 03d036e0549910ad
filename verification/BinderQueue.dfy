/**
 The binder queue: three heaps of units and a list of pods whose PodGroup is not known yet.

 Whatever is called in whatever order, a unit is in at most one heap, no unit is empty, and a
 pod that was added and neither deleted nor popped since is still there.
*/
module BinderQueue {

  import opened BinderTypes
  import opened Backoff

  /** A unit is a PodGroup or a pod of its own; the name of a single pod is its identity. */
  datatype Key = Key(single: bool, name: string)

  /** A queued pod; the revision stands for the pod object it carries. */
  datatype PodInfo = PodInfo(uid: Uid, attempts: nat, revision: int)

  datatype Unit = Unit(key: Key, minMember: int, pods: map<Uid, PodInfo>, attempts: nat, timestamp: int)

  /** A heap, without its order: units by key. */
  type Heap = map<Key, Unit>

  datatype HeapName = WaitingQ | BackoffQ | ReadyQ

  datatype Slot = Slot(heap: HeapName, unit: Unit)

  /** What the queue asks of the rest of the binder at the moment of a call. */
  datatype Env = Env(minMember: Key -> Option<int>, scheduled: Key -> bool)

  predicate ReadyToBePopulated(u: Unit) {
    if u.key.single then |u.pods| > 0 else |u.pods| >= u.minMember
  }

  predicate MayBePopped(u: Unit, env: Env) {
    ReadyToBePopulated(u) || env.scheduled(u.key)
  }

  /** A single-pod unit holds one pod: adding one replaces it. */
  function AddPod(u: Unit, p: PodInfo): Unit {
    u.(pods := if u.key.single then map[p.uid := p] else u.pods[p.uid := p])
  }

  function DeletePod(u: Unit, uid: Uid): Unit {
    u.(pods := if u.key.single then map[] else u.pods - {uid})
  }

  // ---- what the queue holds

  ghost function ViewOf(waiting: Heap, backoff: Heap, ready: Heap): map<Key, Slot> {
    map k | k in waiting.Keys + backoff.Keys + ready.Keys ::
      if k in waiting then Slot(WaitingQ, waiting[k])
      else if k in backoff then Slot(BackoffQ, backoff[k])
      else Slot(ReadyQ, ready[k])
  }

  ghost predicate UnitOk(u: Unit, k: Key, keyOf: Uid -> Key) {
    && u.key == k
    && u.pods.Keys != {}
    && (forall id :: id in u.pods ==> u.pods[id].uid == id && keyOf(id) == k)
    && (k.single ==> forall id, id' :: id in u.pods && id' in u.pods ==> id == id')
  }

  ghost predicate ViewOk(view: map<Key, Slot>, keyOf: Uid -> Key) {
    forall k :: k in view ==> UnitOk(view[k].unit, k, keyOf)
  }

  ghost predicate ListOk(list: map<Uid, PodInfo>, keyOf: Uid -> Key) {
    forall id :: id in list ==> list[id].uid == id && !keyOf(id).single
  }

  /** A pod is queued in the unit of its key or in the list. */
  ghost predicate InUnit(view: map<Key, Slot>, keyOf: Uid -> Key, id: Uid) {
    keyOf(id) in view && id in view[keyOf(id)].unit.pods
  }

  lemma InUnitMeans(view: map<Key, Slot>, keyOf: Uid -> Key, id: Uid)
    ensures InUnit(view, keyOf, id) <==> At(view, keyOf(id)).Some? && id in At(view, keyOf(id)).value.unit.pods
  {
  }

  /** Whom an added pod replaces: the pod of another identity with the same name. */
  ghost predicate Replaced(keyOf: Uid -> Key, uid: Uid, id: Uid) {
    keyOf(uid).single && keyOf(id) == keyOf(uid) && id != uid
  }

  lemma KeyIs(view: map<Key, Slot>, keyOf: Uid -> Key, k: Key)
    requires ViewOk(view, keyOf)
    ensures k in view ==> UnitOk(view[k].unit, k, keyOf)
  {
  }

  lemma AddPodOk(u: Unit, k: Key, p: PodInfo, keyOf: Uid -> Key)
    requires UnitOk(u, k, keyOf) && keyOf(p.uid) == k
    ensures UnitOk(AddPod(u, p), k, keyOf)
  {
    assert p.uid in AddPod(u, p).pods;
  }

  lemma DeletePodOk(u: Unit, k: Key, uid: Uid, keyOf: Uid -> Key)
    requires UnitOk(u, k, keyOf) && |u.pods| != 1
    ensures !k.single && UnitOk(DeletePod(u, uid), k, keyOf)
  {
    var id :| id in u.pods;
    assert |u.pods.Keys| == |u.pods|;
    assert k.single ==> u.pods.Keys == {id};
    assert u.pods.Keys - {uid} == {} ==> u.pods.Keys == {uid};
    assert DeletePod(u, uid).pods.Keys == u.pods.Keys - {uid};
  }

  lemma OnlyPod(u: Unit, uid: Uid)
    requires |u.pods| == 1 && uid in u.pods
    ensures u.pods.Keys == {uid}
  {
    assert |u.pods.Keys| == |u.pods|;
    assert |u.pods.Keys - {uid}| == 0;
    assert u.pods.Keys - {uid} == {};
  }

  /** What a key holds, if anything. */
  ghost function At(view: map<Key, Slot>, k: Key): Option<Slot> {
    if k in view then Some(view[k]) else None
  }

  /** How many pods a unit needs: what its PodGroup says, or one. */
  ghost function Asks(k: Key, env: Env): int {
    if k.single then 1 else if env.minMember(k).Some? then env.minMember(k).value else 0
  }

  /** The unit a pod was put into: it holds the pod and what it held before, unless it is a single pod's. */
  ghost predicate Joined(before: Option<Slot>, after: Slot, pod: PodInfo, env: Env) {
    && pod.uid in after.unit.pods && after.unit.pods[pod.uid] == pod
    && (forall id :: id in after.unit.pods <==>
          id == pod.uid || (before.Some? && !after.unit.key.single && id in before.value.unit.pods))
    && (before.Some? ==> after.unit == before.value.unit.(pods := after.unit.pods))
    && (before == None ==> after.unit.minMember == Asks(after.unit.key, env) && after.unit.attempts == 0)
    && (before.Some? ==> forall id | id in after.unit.pods && id in before.value.unit.pods && id != pod.uid ::
          after.unit.pods[id] == before.value.unit.pods[id])
    && after.heap ==
         if before.Some? && before.value.heap != WaitingQ then before.value.heap
         else if MayBePopped(after.unit, env) then ReadyQ else WaitingQ
  }

  lemma JoinedOk(
    view: map<Key, Slot>, list: map<Uid, PodInfo>, keyOf: Uid -> Key, pod: PodInfo, env: Env, slot: Slot, id: Uid)
    requires ViewOk(view, keyOf) && ListOk(list, keyOf)
    requires Joined(At(view, keyOf(pod.uid)), slot, pod, env) && slot.unit.key == keyOf(pod.uid)
    ensures
      (InUnit(view[keyOf(pod.uid) := slot], keyOf, id) || id in list) <==>
      id == pod.uid || ((InUnit(view, keyOf, id) || id in list) && !Replaced(keyOf, pod.uid, id))
  {
  }

  lemma ListStillOk(list: map<Uid, PodInfo>, keyOf: Uid -> Key, pod: PodInfo)
    requires ListOk(list, keyOf) && !keyOf(pod.uid).single
    ensures ListOk(list[pod.uid := pod], keyOf)
  {
  }

  /** Where a pod goes: into the unit there is, or into a new one of its own. */
  method PlaceFor(found: Option<Slot>, k: Key, pod: PodInfo, env: Env) returns (slot: Slot)
    requires found == None ==> k.single || env.minMember(k).Some?
    requires found.Some? ==> found.value.unit.key == k
    ensures slot.unit.key == k && Joined(found, slot, pod, env)
    ensures found.Some? ==> slot.unit == AddPod(found.value.unit, pod)
    ensures found == None ==> slot.unit.pods == map[pod.uid := pod]
  {
    match found
    case None =>
      var unit := Unit(k, if k.single then 1 else env.minMember(k).value, map[pod.uid := pod], 0, 0);
      slot := Slot(if MayBePopped(unit, env) then ReadyQ else WaitingQ, unit);
    case Some(Slot(heap, stored)) =>
      var unit := AddPod(stored, pod);
      slot := Slot(if heap == WaitingQ && MayBePopped(unit, env) then ReadyQ else heap, unit);
  }

  lemma SlotJoined(
    view: map<Key, Slot>, keyOf: Uid -> Key, found: Option<Slot>, k: Key, pod: PodInfo, env: Env, slot: Slot)
    requires ViewOk(view, keyOf) && found == At(view, k) && keyOf(pod.uid) == k
    requires slot.unit.key == k
    requires found.Some? ==> slot.unit == AddPod(found.value.unit, pod)
    requires found == None ==> slot.unit.pods == map[pod.uid := pod]
    ensures UnitOk(slot.unit, k, keyOf)
  {
    if found.Some? {
      AddPodOk(found.value.unit, k, pod, keyOf);
    } else {
      assert pod.uid in slot.unit.pods;
    }
  }

  lemma ViewGrows(view: map<Key, Slot>, keyOf: Uid -> Key, slot: Slot)
    requires ViewOk(view, keyOf) && UnitOk(slot.unit, slot.unit.key, keyOf)
    ensures ViewOk(view[slot.unit.key := slot], keyOf)
  {
  }

  lemma ListGrows(view: map<Key, Slot>, list: map<Uid, PodInfo>, keyOf: Uid -> Key, pod: PodInfo, id: Uid)
    requires !keyOf(pod.uid).single && keyOf(pod.uid) !in view
    ensures
      (InUnit(view, keyOf, id) || id in list[pod.uid := pod]) <==>
      id == pod.uid || ((InUnit(view, keyOf, id) || id in list) && !Replaced(keyOf, pod.uid, id))
  {
  }

  /** What adding a pod does: it joins its unit or a new one, or the list when its PodGroup is not known. */
  ghost predicate Inserted(
    view: map<Key, Slot>, list: map<Uid, PodInfo>, view': map<Key, Slot>, list': map<Uid, PodInfo>,
    keyOf: Uid -> Key, pod: PodInfo, env: Env)
  {
    var k := keyOf(pod.uid);
    if k in view || k.single || env.minMember(k).Some?
    then list' == list && k in view' && view' == view[k := view'[k]] && Joined(At(view, k), view'[k], pod, env)
    else view' == view && list' == list[pod.uid := pod]
  }

  /** The first pod of a PodGroup that was never scheduled makes it ready exactly if the PodGroup asks for no more than one. */
  lemma FirstPodReady(
    view: map<Key, Slot>, list: map<Uid, PodInfo>, view': map<Key, Slot>, list': map<Uid, PodInfo>,
    keyOf: Uid -> Key, pod: PodInfo, env: Env)
    requires Inserted(view, list, view', list', keyOf, pod, env)
    requires keyOf(pod.uid) !in view && !keyOf(pod.uid).single && !env.scheduled(keyOf(pod.uid))
    requires forall k :: k in view' ==> view'[k].unit.key == k
    ensures
      var k := keyOf(pod.uid);
      match env.minMember(k)
      case None => k !in view' && pod.uid in list'
      case Some(min) => k in view' && view'[k].unit.minMember == min && (view'[k].heap == ReadyQ <==> min <= 1)
  {
    var k := keyOf(pod.uid);
    if env.minMember(k).Some? {
      var pods := view'[k].unit.pods;
      assert pods.Keys == {pod.uid} && |pods.Keys| == |pods|;
    }
  }

  /** The ready heap holds only units that may be popped. */
  ghost predicate OnlyPoppable(view: map<Key, Slot>, env: Env) {
    forall k :: k in view && view[k].heap == ReadyQ ==> MayBePopped(view[k].unit, env)
  }

  /** A unit goes back to waiting only when its PodGroup was scheduled before. */
  function HeapAfter(heap: HeapName, unit: Unit, env: Env): HeapName {
    if heap == ReadyQ && !ReadyToBePopulated(unit) && env.scheduled(unit.key) then WaitingQ else heap
  }

  /** A unit of a PodGroup that had just enough members, was never scheduled, and loses one. */
  ghost predicate LosesMinimum(before: Option<Slot>, uid: Uid, env: Env) {
    && before.Some?
    && uid in before.value.unit.pods
    && 1 < |before.value.unit.pods| == before.value.unit.minMember
    && !env.scheduled(before.value.unit.key)
  }

  ghost predicate FallsShort(before: Option<Slot>, uid: Uid, env: Env) {
    LosesMinimum(before, uid, env) && before.value.heap == ReadyQ
  }

  /** A unit that is ready, or will be after its backoff, although it may not be popped. */
  ghost predicate Stray(slot: Slot, env: Env) {
    slot.heap != WaitingQ && !MayBePopped(slot.unit, env)
  }

  /** No unit went astray, and none that was in backoff became ready. */
  ghost predicate NoWorse(view: map<Key, Slot>, view': map<Key, Slot>, env: Env) {
    forall k :: k in view' && Stray(view'[k], env) ==>
      k in view && Stray(view[k], env) && (view'[k].heap == ReadyQ ==> view[k].heap == ReadyQ)
  }

  /** A unit that waits although it may be popped. */
  ghost predicate HeldBack(slot: Slot, env: Env) {
    slot.heap == WaitingQ && MayBePopped(slot.unit, env)
  }

  /** No unit went astray, none is held back that was not, and minimums stay. */
  ghost predicate Tended(view: map<Key, Slot>, view': map<Key, Slot>, env: Env) {
    && NoWorse(view, view', env)
    && (forall k :: k in view' && HeldBack(view'[k], env) ==> k in view && HeldBack(view[k], env))
    && MinimumsKept(view, view', env)
  }

  /** A unit keeps its minimum, and a new one has that of its PodGroup. */
  ghost predicate MinimumsKept(view: map<Key, Slot>, view': map<Key, Slot>, env: Env) {
    forall k :: k in view' ==>
      if k in view then view'[k].unit.minMember == view[k].unit.minMember
      else view'[k].unit.minMember == Asks(k, env) && (k.single || env.minMember(k).Some?)
  }

  lemma TendedTwice(view: map<Key, Slot>, view': map<Key, Slot>, view'': map<Key, Slot>, env: Env)
    requires Tended(view, view', env) && Tended(view', view'', env) && view.Keys <= view'.Keys
    ensures Tended(view, view'', env)
  {
    hide Stray, HeldBack;
  }

  lemma TendedNoWorse(view: map<Key, Slot>, view': map<Key, Slot>, env: Env)
    requires Tended(view, view', env)
    ensures NoWorse(view, view', env)
  {
  }

  lemma TendedSame(view: map<Key, Slot>, env: Env)
    ensures Tended(view, view, env)
  {
  }

  /** A unit that got another pod may be popped if it might before. */
  lemma JoinedTended(view: map<Key, Slot>, keyOf: Uid -> Key, pod: PodInfo, env: Env, slot: Slot)
    requires ViewOk(view, keyOf) && slot.unit.key == keyOf(pod.uid)
    requires Joined(At(view, keyOf(pod.uid)), slot, pod, env)
    requires keyOf(pod.uid) in view || keyOf(pod.uid).single || env.minMember(keyOf(pod.uid)).Some?
    ensures Tended(view, view[keyOf(pod.uid) := slot], env)
  {
    var k := keyOf(pod.uid);
    assert |slot.unit.pods.Keys| == |slot.unit.pods|;
    assert slot.unit.pods.Keys >= {pod.uid};
    if k in view {
      var before := view[k].unit;
      assert |before.pods.Keys| == |before.pods|;
      if !k.single {
        assert before.pods.Keys <= slot.unit.pods.Keys;
        MoreKeys(before.pods.Keys, slot.unit.pods.Keys);
      }
    }
    if k.single {
      assert pod.uid in slot.unit.pods;
    }
  }

  lemma MoreKeys(a: set<Uid>, b: set<Uid>)
    requires a <= b
    ensures |a| <= |b|
  {
    assert b == a + (b - a);
  }

  /** A unit written back with as many pods stays where it was, or goes back to waiting. */
  lemma UpdatedNoWorse(view: map<Key, Slot>, k: Key, unit: Unit, env: Env)
    requires k in view && unit.key == view[k].unit.key && unit.minMember == view[k].unit.minMember
    requires |unit.pods| == |view[k].unit.pods|
    ensures NoWorse(view, view[k := Slot(HeapAfter(view[k].heap, unit, env), unit)], env)
  {
  }

  lemma TakenTended(view: map<Key, Slot>, k: Key, env: Env)
    ensures Tended(view, view - {k}, env)
  {
  }

  lemma ActivatedTended(view: map<Key, Slot>, k: Key, env: Env)
    requires k in view && MayBePopped(view[k].unit, env)
    ensures Tended(view, view[k := Slot(ReadyQ, view[k].unit)], env)
  {
  }

  /** A unit put back leaves the ready heap no worse. */
  lemma PutBackKeepsPoppable(view: map<Key, Slot>, k: Key, unit: Unit, env: Env)
    requires OnlyPoppable(view, env)
    ensures OnlyPoppable(view[k := Slot(BackoffQ, unit)], env)
  {
  }

  /** The pump: exactly the units in backoff whose time is over are ready now. */
  ghost predicate Pumped(view: map<Key, Slot>, view': map<Key, Slot>, now: int, over: Unit -> int) {
    && view'.Keys == view.Keys
    && (forall k :: k in view ==>
          view'[k] == if view[k].heap == BackoffQ && over(view[k].unit) <= now then Slot(ReadyQ, view[k].unit) else view[k])
  }

  /** Every unit whose backoff is over may be popped. */
  ghost predicate AllRipePoppable(view: map<Key, Slot>, now: int, over: Unit -> int, env: Env) {
    forall k :: k in view && view[k].heap == BackoffQ && over(view[k].unit) <= now ==> MayBePopped(view[k].unit, env)
  }

  /** When the backoff of a unit is over. */
  function Over(initial: int, max: int): Unit -> int {
    (u: Unit) => u.timestamp + Delay(initial, max, u.attempts)
  }

  /** A unit ripens between the initial and the maximal delay after it was put back, later after more attempts. */
  lemma RipensInTime(initial: int, max: int, u: Unit, attempts: nat)
    requires 0 < initial <= max && u.attempts <= attempts
    ensures u.timestamp + initial <= Over(initial, max)(u) <= Over(initial, max)(u.(attempts := attempts)) <= u.timestamp + max
  {
    DelayIsMonotone(initial, max, u.attempts, attempts);
  }

  /** The pump moves units without asking whether they may be popped; it matters exactly if one may not. */
  lemma PoppableAfterPump(view: map<Key, Slot>, view': map<Key, Slot>, now: int, over: Unit -> int, env: Env)
    requires Pumped(view, view', now, over) && OnlyPoppable(view, env)
    ensures OnlyPoppable(view', env) <==> AllRipePoppable(view, now, over, env)
  {
    hide MayBePopped;
    if OnlyPoppable(view', env) {
      forall k | k in view && view[k].heap == BackoffQ && over(view[k].unit) <= now
        ensures MayBePopped(view[k].unit, env)
      {
        assert view'[k] == Slot(ReadyQ, view[k].unit);
      }
    }
  }

  /** What a key holds after one of its pods was deleted. */
  function AfterDelete(before: Slot, uid: Uid, env: Env): Option<Slot> {
    if |before.unit.pods| == 1 then
      if uid in before.unit.pods then None else Some(before)
    else
      var unit := DeletePod(before.unit, uid);
      Some(Slot(HeapAfter(before.heap, unit, env), unit))
  }

  ghost function With(view: map<Key, Slot>, k: Key, slot: Option<Slot>): map<Key, Slot> {
    match slot
    case None => view - {k}
    case Some(s) => view[k := s]
  }

  /** The heaps after a pod was deleted: its unit lost it, or is gone with its last pod. */
  ghost function Deleted(view: map<Key, Slot>, keyOf: Uid -> Key, uid: Uid, env: Env): map<Key, Slot> {
    var k := keyOf(uid);
    if k in view then With(view, k, AfterDelete(view[k], uid, env)) else view
  }

  lemma AfterDeleteMeans(before: Slot, uid: Uid, env: Env)
    ensures AfterDelete(before, uid, env) ==
      if |before.unit.pods| == 1 then
        if uid in before.unit.pods then None else Some(before)
      else
        Some(Slot(HeapAfter(before.heap, DeletePod(before.unit, uid), env), DeletePod(before.unit, uid)))
  {
  }

  lemma NothingFallsShort(uid: Uid, env: Env)
    ensures !FallsShort(None, uid, env)
  {
  }

  lemma ListShrinks(list: map<Uid, PodInfo>, keyOf: Uid -> Key, uid: Uid)
    requires ListOk(list, keyOf)
    ensures ListOk(list - {uid}, keyOf)
  {
  }

  lemma AfterDeleteOk(view: map<Key, Slot>, keyOf: Uid -> Key, uid: Uid, env: Env)
    requires ViewOk(view, keyOf) && keyOf(uid) in view
    ensures
      var k := keyOf(uid);
      var view' := With(view, k, AfterDelete(view[k], uid, env));
      && ViewOk(view', keyOf)
      && (forall id :: InUnit(view', keyOf, id) <==> InUnit(view, keyOf, id) && id != uid)
  {
    var k := keyOf(uid);
    var unit := view[k].unit;
    if |unit.pods| != 1 {
      DeletePodOk(unit, k, uid, keyOf);
    } else if uid in unit.pods {
      OnlyPod(unit, uid);
    }
  }

  lemma DeleteCounts(u: Unit, k: Key, uid: Uid, keyOf: Uid -> Key)
    requires UnitOk(u, k, keyOf) && |u.pods| != 1
    ensures |DeletePod(u, uid).pods| == |u.pods| - if uid in u.pods then 1 else 0
    ensures 1 < |u.pods| && !k.single
  {
    DeletePodOk(u, k, uid, keyOf);
    var after := DeletePod(u, uid);
    assert |u.pods.Keys| == |u.pods| && |after.pods.Keys| == |after.pods|;
    assert after.pods.Keys == u.pods.Keys - {uid};
  }

  lemma StillPoppable(before: Slot, k: Key, uid: Uid, keyOf: Uid -> Key, env: Env)
    requires UnitOk(before.unit, k, keyOf) && (before.heap == ReadyQ ==> MayBePopped(before.unit, env))
    ensures
      var after := AfterDelete(before, uid, env);
      (after.Some? && after.value.heap == ReadyQ ==> MayBePopped(after.value.unit, env))
      <==> !FallsShort(Some(before), uid, env)
  {
    if |before.unit.pods| != 1 {
      DeleteCounts(before.unit, k, uid, keyOf);
    }
  }

  /** Deleting a pod leaves a unit that may not be popped in the ready heap in one case exactly. */
  lemma PoppableAfterDelete(view: map<Key, Slot>, keyOf: Uid -> Key, uid: Uid, env: Env)
    requires ViewOk(view, keyOf) && keyOf(uid) in view && OnlyPoppable(view, env)
    ensures
      var k := keyOf(uid);
      OnlyPoppable(With(view, k, AfterDelete(view[k], uid, env)), env) <==> !FallsShort(Some(view[k]), uid, env)
  {
    hide FallsShort, UnitOk, MayBePopped, AfterDelete;
    var k := keyOf(uid);
    StillPoppable(view[k], k, uid, keyOf, env);
    var after := AfterDelete(view[k], uid, env);
    var view' := With(view, k, after);
    assert forall j :: j in view' && j != k ==> j in view && view'[j] == view[j];
    assert k in view' <==> after.Some?;
    assert after.Some? ==> view'[k] == after.value;
  }

  /** The queue holds the pod with the given pod object. */
  ghost predicate Carries(view: map<Key, Slot>, list: map<Uid, PodInfo>, keyOf: Uid -> Key, pod: PodInfo) {
    || (InUnit(view, keyOf, pod.uid) && view[keyOf(pod.uid)].unit.pods[pod.uid].revision == pod.revision)
    || (pod.uid in list && list[pod.uid].revision == pod.revision)
  }

  function Refreshed(stored: PodInfo, pod: PodInfo): PodInfo {
    stored.(revision := pod.revision)
  }

  lemma UpdatedInPlace(
    view: map<Key, Slot>, list: map<Uid, PodInfo>, keyOf: Uid -> Key, pod: PodInfo, slot: Slot, env: Env)
    requires ViewOk(view, keyOf) && ListOk(list, keyOf)
    requires keyOf(pod.uid) in view && view[keyOf(pod.uid)] == slot && pod.uid in slot.unit.pods
    ensures
      var unit := AddPod(slot.unit, Refreshed(slot.unit.pods[pod.uid], pod));
      var view' := view[keyOf(pod.uid) := Slot(HeapAfter(slot.heap, unit, env), unit)];
      && unit.key == keyOf(pod.uid) == slot.unit.key && unit.minMember == slot.unit.minMember
      && |unit.pods| == |slot.unit.pods|
      && view'.Keys == view.Keys && ViewOk(view', keyOf) && Carries(view', list, keyOf, pod)
      && (forall id :: (InUnit(view', keyOf, id) || id in list) <==>
            id == pod.uid || ((InUnit(view, keyOf, id) || id in list) && !Replaced(keyOf, pod.uid, id)))
  {
    var unit := AddPod(slot.unit, Refreshed(slot.unit.pods[pod.uid], pod));
    AddPodOk(slot.unit, keyOf(pod.uid), Refreshed(slot.unit.pods[pod.uid], pod), keyOf);
    var slot' := Slot(HeapAfter(slot.heap, unit, env), unit);
    ViewGrows(view, keyOf, slot');
    assert view[keyOf(pod.uid) := slot'].Keys == view.Keys;
    assert unit.pods.Keys == slot.unit.pods.Keys;
    assert |unit.pods.Keys| == |unit.pods| && |slot.unit.pods.Keys| == |slot.unit.pods|;
  }

  lemma UpdatedInList(view: map<Key, Slot>, list: map<Uid, PodInfo>, keyOf: Uid -> Key, pod: PodInfo)
    requires ListOk(list, keyOf) && pod.uid in list
    ensures
      var list' := list[pod.uid := Refreshed(list[pod.uid], pod)];
      && list'.Keys == list.Keys && ListOk(list', keyOf) && Carries(view, list', keyOf, pod)
      && (forall id :: (InUnit(view, keyOf, id) || id in list') <==>
            id == pod.uid || ((InUnit(view, keyOf, id) || id in list) && !Replaced(keyOf, pod.uid, id)))
  {
    assert list[pod.uid := Refreshed(list[pod.uid], pod)].Keys == list.Keys;
  }

  /** The heaps after a pod object was replaced in its unit. */
  ghost function RefreshedView(view: map<Key, Slot>, keyOf: Uid -> Key, pod: PodInfo, env: Env): map<Key, Slot>
    requires InUnit(view, keyOf, pod.uid)
  {
    var slot := view[keyOf(pod.uid)];
    var unit := AddPod(slot.unit, Refreshed(slot.unit.pods[pod.uid], pod));
    view[keyOf(pod.uid) := Slot(HeapAfter(slot.heap, unit, env), unit)]
  }

  /** What updating a pod does: in its unit, in the list, or by adding it. */
  ghost predicate UpdatedTo(
    view: map<Key, Slot>, list: map<Uid, PodInfo>, view': map<Key, Slot>, list': map<Uid, PodInfo>,
    keyOf: Uid -> Key, known: bool, pod: PodInfo, env: Env)
  {
    if known && InUnit(view, keyOf, pod.uid) then view' == RefreshedView(view, keyOf, pod, env) && list' == list
    else if known && pod.uid in list then
      view' == view && list' == list[pod.uid := Refreshed(list[pod.uid], pod)]
    else Inserted(view, list, view', list', keyOf, pod, env)
  }

  lemma InsertedCarries(
    view: map<Key, Slot>, list: map<Uid, PodInfo>, view': map<Key, Slot>, list': map<Uid, PodInfo>,
    keyOf: Uid -> Key, pod: PodInfo, env: Env)
    requires Inserted(view, list, view', list', keyOf, pod, env)
    ensures Carries(view', list', keyOf, pod)
  {
  }

  /** A popped unit. */
  function Attempted(u: Unit): Unit {
    u.(attempts := u.attempts + 1, pods := map id | id in u.pods :: u.pods[id].(attempts := u.pods[id].attempts + 1))
  }

  /** The unit and each of its pods were attempted once more; nothing else changed. */
  ghost predicate OneMoreAttempt(u: Unit, u': Unit) {
    && u'.key == u.key && u'.minMember == u.minMember && u'.timestamp == u.timestamp
    && u'.attempts - u.attempts == 1 && u'.pods.Keys == u.pods.Keys
    && (forall id :: id in u.pods ==>
          u'.pods[id].attempts - u.pods[id].attempts == 1 && u'.pods[id].(attempts := 0) == u.pods[id].(attempts := 0))
  }

  lemma AttemptedKeeps(u: Unit)
    ensures Attempted(u).pods.Keys == u.pods.Keys && Attempted(u).key == u.key
    ensures OneMoreAttempt(u, Attempted(u))
  {
  }

  lemma UnitKey(u: Unit, k: Key, keyOf: Uid -> Key)
    requires UnitOk(u, k, keyOf)
    ensures u.key == k
  {
  }

  lemma ReadyInView(waiting: Heap, backoff: Heap, ready: Heap, k: Key)
    requires waiting.Keys !! ready.Keys && backoff.Keys !! ready.Keys && k in ready
    ensures k in ViewOf(waiting, backoff, ready) && ViewOf(waiting, backoff, ready)[k] == Slot(ReadyQ, ready[k])
  {
  }

  lemma TakenOut(view: map<Key, Slot>, keyOf: Uid -> Key, k: Key)
    requires ViewOk(view, keyOf) && k in view
    ensures ViewOk(view - {k}, keyOf)
    ensures forall id :: InUnit(view - {k}, keyOf, id) <==> InUnit(view, keyOf, id) && id !in view[k].unit.pods
  {
  }

  /** A unit put back together with what was queued for it meanwhile. */
  ghost predicate Merged(unit: Unit, before: Option<Slot>, after: Unit) {
    && after.key == unit.key && after.minMember == unit.minMember
    && (forall id :: id in after.pods <==>
          if unit.key.single && before.Some? then id in before.value.unit.pods
          else id in unit.pods || (before.Some? && id in before.value.unit.pods))
    && (forall id :: id in after.pods && id in unit.pods ==> after.pods[id] == unit.pods[id])
    && (forall id :: id in after.pods && id !in unit.pods ==>
          before.Some? && id in before.value.unit.pods && after.pods[id] == before.value.unit.pods[id])
  }

  method Merge(unit: Unit, found: Option<Slot>, ghost keyOf: Uid -> Key) returns (merged: Unit)
    requires UnitOk(unit, unit.key, keyOf)
    requires found.Some? ==> UnitOk(found.value.unit, unit.key, keyOf)
    ensures UnitOk(merged, unit.key, keyOf) && Merged(unit, found, merged)
    ensures merged.timestamp == unit.timestamp && merged.attempts == unit.attempts
  {
    merged := unit;
    if found == None {
      return;
    }
    var pods := found.value.unit.pods;
    var todo := pods.Keys;
    while todo != {}
      invariant UnitOk(merged, unit.key, keyOf) && todo <= pods.Keys
      invariant merged.timestamp == unit.timestamp && merged.attempts == unit.attempts
      invariant merged.minMember == unit.minMember
      invariant forall id :: id in merged.pods <==>
        if unit.key.single && todo != pods.Keys then id in pods else id in unit.pods || id in pods.Keys - todo
      invariant forall id :: id in merged.pods && id in unit.pods ==> merged.pods[id] == unit.pods[id]
      invariant forall id :: id in merged.pods && id !in unit.pods ==> id in pods && merged.pods[id] == pods[id]
    {
      var id :| id in todo;
      todo := todo - {id};
      if id !in merged.pods {
        AddPodOk(merged, unit.key, pods[id], keyOf);
        merged := AddPod(merged, pods[id]);
      }
    }
  }

  /** What the unit put back will hold: its pods and those queued meanwhile. */
  ghost function UnionOf(unit: Unit, before: Option<Slot>): set<Uid> {
    unit.pods.Keys + if before.Some? then before.value.unit.pods.Keys else {}
  }

  /** A unit put back may be popped later: it is a single pod's, was scheduled, or the union reaches its minimum. */
  ghost predicate Enough(unit: Unit, before: Option<Slot>, env: Env) {
    unit.key.single || env.scheduled(unit.key) || |UnionOf(unit, before)| >= unit.minMember
  }

  lemma MergedPoppable(unit: Unit, before: Option<Slot>, after: Unit, keyOf: Uid -> Key, env: Env)
    requires UnitOk(unit, unit.key, keyOf) && Merged(unit, before, after)
    requires before.Some? ==> UnitOk(before.value.unit, unit.key, keyOf)
    ensures MayBePopped(after, env) <==> Enough(unit, before, env)
  {
    assert |after.pods.Keys| == |after.pods|;
    if unit.key.single {
      var id :| id in if before.Some? then before.value.unit.pods else unit.pods;
      assert id in after.pods;
    } else {
      assert after.pods.Keys == UnionOf(unit, before);
    }
  }

  lemma MergedHas(view: map<Key, Slot>, keyOf: Uid -> Key, unit: Unit, merged: Unit, id: Uid)
    requires ViewOk(view, keyOf) && UnitOk(unit, unit.key, keyOf)
    requires exists now :: Merged(unit.(timestamp := now), At(view, unit.key), merged)
    ensures InUnit(view[unit.key := Slot(BackoffQ, merged)], keyOf, id) <==>
      InUnit(view, keyOf, id) || (id in unit.pods && (!unit.key.single || unit.key !in view))
  {
  }

  lemma MergedStamp(unit: Unit, now: int, before: Option<Slot>, after: Unit)
    requires Merged(unit.(timestamp := now), before, after)
    ensures Merged(unit, before, after)
  {
  }

  lemma MovedView(view: map<Key, Slot>, keyOf: Uid -> Key, k: Key, heap: HeapName)
    requires ViewOk(view, keyOf) && k in view
    ensures ViewOk(view[k := Slot(heap, view[k].unit)], keyOf)
    ensures forall id :: InUnit(view[k := Slot(heap, view[k].unit)], keyOf, id) <==> InUnit(view, keyOf, id)
  {
  }

  lemma BackoffInView(waiting: Heap, backoff: Heap, ready: Heap, k: Key)
    requires waiting.Keys !! backoff.Keys && k in backoff
    ensures k in ViewOf(waiting, backoff, ready) && ViewOf(waiting, backoff, ready)[k] == Slot(BackoffQ, backoff[k])
    ensures
      ViewOf(waiting, backoff - {k}, ready[k := backoff[k]])
      == ViewOf(waiting, backoff, ready)[k := Slot(ReadyQ, backoff[k])]
  {
  }

  /** Some of the units whose backoff is over have moved. */
  ghost predicate Pumping(b0: Heap, r0: Heap, b: Heap, r: Heap, now: int, over: Unit -> int) {
    && (forall k :: k in b ==> k in b0 && b[k] == b0[k])
    && (forall k :: k in b0 && over(b0[k]) > now ==> k in b)
    && r == r0 + map k | k in b0.Keys - b.Keys :: b0[k]
  }

  lemma PumpStarts(b: Heap, r: Heap, now: int, over: Unit -> int)
    ensures Pumping(b, r, b, r, now, over)
  {
    assert b.Keys - b.Keys == {};
  }

  lemma PumpStep(b0: Heap, r0: Heap, b: Heap, r: Heap, now: int, over: Unit -> int, k: Key)
    requires Pumping(b0, r0, b, r, now, over) && k in b && over(b[k]) <= now
    ensures Pumping(b0, r0, b - {k}, r[k := b[k]], now, over)
  {
    assert (map j | j in b0.Keys - (b - {k}).Keys :: b0[j]) == (map j | j in b0.Keys - b.Keys :: b0[j])[k := b[k]];
  }

  /** When the pump stops, the heaps show that exactly the ripe units have moved. */
  lemma PumpedHeaps(waiting: Heap, b0: Heap, r0: Heap, b: Heap, r: Heap, now: int, over: Unit -> int)
    requires waiting.Keys !! b0.Keys && waiting.Keys !! r0.Keys && b0.Keys !! r0.Keys
    requires Pumping(b0, r0, b, r, now, over) && forall k :: k in b ==> over(b[k]) > now
    ensures Pumped(ViewOf(waiting, b0, r0), ViewOf(waiting, b, r), now, over)
  {
    var view, view' := ViewOf(waiting, b0, r0), ViewOf(waiting, b, r);
    assert forall k :: k in b0 ==> (k in b <==> over(b0[k]) > now);
    assert forall k :: k in r <==> k in r0 || (k in b0 && k !in b);
    assert view'.Keys == view.Keys;
  }

  lemma Smaller(h: Heap, k: Key)
    requires k in h
    ensures |h - {k}| < |h|
  {
    assert |h.Keys| == |h| && |(h - {k}).Keys| == |h - {k}|;
    assert (h - {k}).Keys == h.Keys - {k};
  }

  /** The head of the backoff heap. */
  method Earliest(h: Heap, over: Unit -> int) returns (k: Key)
    requires h.Keys != {}
    ensures k in h && forall j :: j in h ==> over(h[k]) <= over(h[j])
  {
    k :| k in h.Keys;
    var todo := h.Keys;
    while todo != {}
      invariant k in h && todo <= h.Keys
      invariant forall j :: j in h.Keys - todo ==> over(h[k]) <= over(h[j])
    {
      var j :| j in todo;
      todo := todo - {j};
      if over(h[j]) < over(h[k]) {
        k := j;
      }
    }
  }

  class PriorityQueue {
    const keyOf: Uid -> Key
    const initialBackoff: int
    const maxBackoff: int
    var waiting: Heap
    var backoff: Heap
    var ready: Heap
    var list: map<Uid, PodInfo>
    /** The pods that were added and neither deleted, popped nor replaced since. */
    ghost var owed: set<Uid>

    ghost function View(): map<Key, Slot>
      reads this`waiting, this`backoff, this`ready, this`list
    {
      ViewOf(waiting, backoff, ready)
    }

    ghost predicate Has(id: Uid)
      reads this`waiting, this`backoff, this`ready, this`list
    {
      InUnit(View(), keyOf, id) || id in list
    }

    /** Each key is in one heap at most. */
    ghost predicate Apart()
      reads this`waiting, this`backoff, this`ready, this`list
    {
      waiting.Keys !! backoff.Keys && waiting.Keys !! ready.Keys && backoff.Keys !! ready.Keys
    }

    ghost predicate Sound()
      reads this`waiting, this`backoff, this`ready, this`list
    {
      Apart() && ViewOk(View(), keyOf) && ListOk(list, keyOf)
    }

    /** No pod is lost. */
    ghost predicate Valid()
      reads this
    {
      Sound() && forall id :: id in owed ==> Has(id)
    }

    constructor (keyOf: Uid -> Key, initialBackoff: int, maxBackoff: int)
      ensures this.initialBackoff == initialBackoff && this.maxBackoff == maxBackoff
      ensures Valid() && this.keyOf == keyOf && View() == map[] && list == map[] && owed == {}
    {
      this.keyOf, this.initialBackoff, this.maxBackoff := keyOf, initialBackoff, maxBackoff;
      waiting, backoff, ready, list, owed := map[], map[], map[], map[], {};
    }

    /** Looks a unit up, in the order the heaps are searched. */
    method GetUnit(k: Key) returns (slot: Option<Slot>)
      ensures slot == if k in View() then Some(View()[k]) else None
    {
      slot :=
        if k in waiting then Some(Slot(WaitingQ, waiting[k]))
        else if k in backoff then Some(Slot(BackoffQ, backoff[k]))
        else if k in ready then Some(Slot(ReadyQ, ready[k]))
        else None;
    }

    /** Adds or updates a unit in a heap that no other heap holds. */
    method Put(heap: HeapName, unit: Unit)
      requires Apart() && (unit.key in View() ==> View()[unit.key].heap == heap)
      modifies this`waiting, this`backoff, this`ready
      ensures Apart() && View() == old(View())[unit.key := Slot(heap, unit)]
    {
      match heap {
        case WaitingQ => waiting := waiting[unit.key := unit];
        case BackoffQ => backoff := backoff[unit.key := unit];
        case ReadyQ => ready := ready[unit.key := unit];
      }
    }

    method Take(heap: HeapName, k: Key)
      requires Apart() && (k in View() ==> View()[k].heap == heap)
      modifies this`waiting, this`backoff, this`ready
      ensures Apart() && View() == old(View()) - {k}
    {
      match heap {
        case WaitingQ => waiting := waiting - {k};
        case BackoffQ => backoff := backoff - {k};
        case ReadyQ => ready := ready - {k};
      }
    }

    // ---- adding

    /** Puts a pod into the unit of its key, creating it if its PodGroup is known, or into the list. */
    method Insert(pod: PodInfo, env: Env) returns (ok: bool)
      requires Sound()
      modifies this`waiting, this`backoff, this`ready, this`list
      ensures Sound()
      ensures ok <==> var k := keyOf(pod.uid); k in old(View()) || k.single || env.minMember(k).Some?
      ensures Inserted(old(View()), old(list), View(), list, keyOf, pod, env)
      ensures forall id :: Has(id) <==> id == pod.uid || (old(Has(id)) && !Replaced(keyOf, pod.uid, id))
      ensures Tended(old(View()), View(), env)
    {
      hide ViewOf, ViewOk, ListOk, InUnit, Replaced, Joined, Tended;
      ghost var view, list0 := View(), list;
      var k := keyOf(pod.uid);
      var found := GetUnit(k);
      if found == None && !k.single && env.minMember(k) == None {
        list := list[pod.uid := pod];
        ListStillOk(list0, keyOf, pod);
        forall id
          ensures Has(id) <==> id == pod.uid || (old(Has(id)) && !Replaced(keyOf, pod.uid, id))
        {
          ListGrows(view, list0, keyOf, pod, id);
        }
        TendedSame(view, env);
        return false;
      }
      KeyIs(view, keyOf, k);
      var slot := PlaceFor(found, k, pod, env);
      SlotJoined(view, keyOf, found, k, pod, env, slot);
      ViewGrows(view, keyOf, slot);
      JoinedTended(view, keyOf, pod, env, slot);
      if found.Some? && found.value.heap != slot.heap {
        Take(found.value.heap, k);
      }
      Put(slot.heap, slot.unit);
      assert view - {k} + map[k := slot] == view[k := slot];
      assert View() == view[k := slot];
      forall id
        ensures Has(id) <==> id == pod.uid || (old(Has(id)) && !Replaced(keyOf, pod.uid, id))
      {
        JoinedOk(view, list, keyOf, pod, env, slot, id);
      }
      ok := true;
    }

    /** Adds a pod. It replaces nothing but a single pod of the same name and another identity. */
    method Add(pod: PodInfo, env: Env) returns (ok: bool)
      requires Valid()
      modifies this
      ensures Valid()
      ensures ok <==> var k := keyOf(pod.uid); k in old(View()) || k.single || env.minMember(k).Some?
      ensures Inserted(old(View()), old(list), View(), list, keyOf, pod, env)
      ensures forall id :: Has(id) <==> id == pod.uid || (old(Has(id)) && !Replaced(keyOf, pod.uid, id))
      ensures owed == (set id | id in old(owed) && !Replaced(keyOf, pod.uid, id)) + {pod.uid}
      ensures Tended(old(View()), View(), env)
    {
      hide ViewOf, ViewOk, ListOk, InUnit, Replaced, Joined, Tended;
      ok := Insert(pod, env);
      owed := (set id | id in owed && !Replaced(keyOf, pod.uid, id)) + {pod.uid};
    }

    /** Writes back a unit whose pods changed in place. */
    method UpdateUnit(heap: HeapName, unit: Unit, env: Env)
      requires Apart() && unit.key in View() && View()[unit.key].heap == heap
      modifies this`waiting, this`backoff, this`ready
      ensures Apart() && View() == old(View())[unit.key := Slot(HeapAfter(heap, unit, env), unit)]
    {
      hide ViewOf;
      ghost var view := View();
      if heap == ReadyQ && !ReadyToBePopulated(unit) && env.scheduled(unit.key) {
        Take(ReadyQ, unit.key);
        Put(WaitingQ, unit);
        assert (view - {unit.key})[unit.key := Slot(WaitingQ, unit)] == view[unit.key := Slot(WaitingQ, unit)];
      } else {
        Put(heap, unit);
      }
    }

    /**
     Updates the pod wherever it is, or adds it. The new pod object is stored with the old
     number of attempts when there was one.
    */
    method Update(known: bool, pod: PodInfo, env: Env)
      requires Valid()
      modifies this
      ensures Valid()
      ensures UpdatedTo(old(View()), old(list), View(), list, keyOf, known, pod, env)
      ensures forall id :: Has(id) <==> id == pod.uid || (old(Has(id)) && !Replaced(keyOf, pod.uid, id))
      ensures owed == (set id | id in old(owed) && !Replaced(keyOf, pod.uid, id)) + {pod.uid}
      ensures Carries(View(), list, keyOf, pod)
      ensures NoWorse(old(View()), View(), env)
      ensures !(known && old(InUnit(View(), keyOf, pod.uid))) ==> Tended(old(View()), View(), env)
    {
      hide ViewOf, ViewOk, ListOk, InUnit, Replaced, Joined, Carries, NoWorse, Inserted, Tended;
      if known {
        var found := GetUnit(keyOf(pod.uid));
        InUnitMeans(View(), keyOf, pod.uid);
        if found.Some? && pod.uid in found.value.unit.pods {
          UpdateInUnit(found.value, pod, env);
          return;
        }
        if pod.uid in list {
          TendedSame(View(), env);
          TendedNoWorse(View(), View(), env);
          UpdatedInList(View(), list, keyOf, pod);
          list := list[pod.uid := Refreshed(list[pod.uid], pod)];
          owed := (set id | id in owed && !Replaced(keyOf, pod.uid, id)) + {pod.uid};
          return;
        }
      }
      ghost var view, list0 := View(), list;
      var ok := Insert(pod, env);
      owed := (set id | id in owed && !Replaced(keyOf, pod.uid, id)) + {pod.uid};
      InsertedCarries(view, list0, View(), list, keyOf, pod, env);
      TendedNoWorse(view, View(), env);
    }

    /** Updates a pod where its unit is. */
    method UpdateInUnit(slot: Slot, pod: PodInfo, env: Env)
      requires Valid() && At(View(), keyOf(pod.uid)) == Some(slot) && pod.uid in slot.unit.pods
      requires InUnit(View(), keyOf, pod.uid)
      modifies this
      ensures Valid() && list == old(list) && View() == RefreshedView(old(View()), keyOf, pod, env)
      ensures forall id :: Has(id) <==> id == pod.uid || (old(Has(id)) && !Replaced(keyOf, pod.uid, id))
      ensures owed == (set id | id in old(owed) && !Replaced(keyOf, pod.uid, id)) + {pod.uid}
      ensures Carries(View(), list, keyOf, pod) && NoWorse(old(View()), View(), env)
    {
      hide ViewOf, ViewOk, ListOk, InUnit, Replaced, Carries, NoWorse;
      ghost var view := View();
      var unit := AddPod(slot.unit, Refreshed(slot.unit.pods[pod.uid], pod));
      UpdatedInPlace(view, list, keyOf, pod, slot, env);
      UpdatedNoWorse(view, keyOf(pod.uid), unit, env);
      UpdateUnit(slot.heap, unit, env);
      owed := (set id | id in owed && !Replaced(keyOf, pod.uid, id)) + {pod.uid};
    }

    // ---- deleting

    /**
     Deletes a pod. One that waits in the list while its unit exists stays there; and a unit
     that falls below its minimum stays in the ready heap unless it was scheduled before.
    */
    method Delete(uid: Uid, env: Env)
      requires Valid()
      modifies this
      ensures Valid()
      ensures forall id :: id != uid ==> (Has(id) <==> old(Has(id)))
      ensures Has(uid) <==> old(uid in list && keyOf(uid) in View())
      ensures owed == old(owed) - {uid}
      ensures View() == Deleted(old(View()), keyOf, uid, env)
      ensures old(OnlyPoppable(View(), env)) ==>
        (OnlyPoppable(View(), env) <==> !old(FallsShort(At(View(), keyOf(uid)), uid, env)))
    {
      hide ViewOf, ViewOk, ListOk, FallsShort, OnlyPoppable, AfterDelete, Replaced;
      ghost var view := View();
      var k := keyOf(uid);
      var found := GetUnit(k);
      owed := owed - {uid};
      match found {
        case None =>
          ListShrinks(list, keyOf, uid);
          list := list - {uid};
          NothingFallsShort(uid, env);
        case Some(Slot(heap, unit)) =>
          AfterDeleteOk(view, keyOf, uid, env);
          AfterDeleteMeans(view[k], uid, env);
          if old(OnlyPoppable(View(), env)) {
            PoppableAfterDelete(view, keyOf, uid, env);
          }
          if |unit.pods| == 1 {
            if uid in unit.pods {
              Take(heap, k);
            }
          } else {
            KeyIs(view, keyOf, k);
            UpdateUnit(heap, DeletePod(unit, uid), env);
          }
          assert View() == With(view, k, AfterDelete(view[k], uid, env));
      }
    }

    // ---- popping

    /** Takes a unit out of the ready heap, with one more attempt counted for it and for each of its pods. */
    method Pop() returns (popped: Option<Unit>)
      requires Valid()
      modifies this
      ensures Valid()
      ensures popped == None <==> old(ready) == map[]
      ensures popped == None ==> View() == old(View()) && list == old(list) && owed == old(owed)
      ensures popped.Some? ==>
        var u := popped.value;
        && old(u.key in View() && View()[u.key].heap == ReadyQ)
        && u == Attempted(old(View())[u.key].unit) && OneMoreAttempt(old(View())[u.key].unit, u)
        && View() == old(View()) - {u.key} && list == old(list)
        && owed == old(owed) - u.pods.Keys
        && (forall id :: Has(id) <==> old(Has(id)) && (id !in u.pods || id in list))
      ensures forall env: Env :: Tended(old(View()), View(), env)
    {
      hide ViewOf, ViewOk, InUnit, ListOk, UnitOk, Attempted, Tended, OneMoreAttempt;
      if ready.Keys == {} {
        assert ready == map[];
        forall env: Env
          ensures Tended(View(), View(), env)
        {
          TendedSame(View(), env);
        }
        return None;
      }
      var k :| k in ready.Keys;
      ghost var view := View();
      ReadyInView(waiting, backoff, ready, k);
      KeyIs(view, keyOf, k);
      TakenOut(view, keyOf, k);
      AttemptedKeeps(ready[k]);
      UnitKey(ready[k], k, keyOf);
      var unit := Attempted(ready[k]);
      Take(ReadyQ, k);
      owed := owed - unit.pods.Keys;
      popped := Some(unit);
      forall env: Env
        ensures Tended(view, View(), env)
      {
        TakenTended(view, k, env);
      }
    }

    // ---- the list of pods without a known PodGroup

    /** Tries every pod of the list again: those whose PodGroup is known now move into its unit. */
    method CheckWaitingPods(env: Env)
      requires Valid()
      modifies this
      ensures Valid() && owed == old(owed)
      ensures forall id :: Has(id) <==> old(Has(id))
      ensures list.Keys ==
        set id | id in old(list) && keyOf(id) !in old(View()) && env.minMember(keyOf(id)) == None
      ensures Tended(old(View()), View(), env)
    {
      hide ViewOf, ViewOk, InUnit, Joined, Tended;
      ghost var view := View();
      var waitingPods := list;
      list := map[];
      TendedSame(view, env);
      var todo := waitingPods.Keys;
      while todo != {}
        invariant Sound() && owed == old(owed) && todo <= waitingPods.Keys
        invariant forall id :: old(Has(id)) <==> Has(id) || id in todo
        invariant Tended(view, View(), env)
        invariant forall k :: k in view ==> k in View()
        invariant forall k :: k in View() && k !in view ==> env.minMember(k).Some?
        invariant forall id :: id in list <==> id in waitingPods.Keys - todo && keyOf(id) !in view && env.minMember(keyOf(id)) == None
      {
        var id :| id in todo;
        assert ListOk(waitingPods, keyOf);
        ghost var before := View();
        var ok := Insert(waitingPods[id], env);
        TendedTwice(view, before, View(), env);
        todo := todo - {id};
      }
      assert list.Keys ==
        set id | id in waitingPods && keyOf(id) !in view && env.minMember(keyOf(id)) == None;
    }

    // ---- putting back and moving between heaps

    /**
     Puts a unit back that was popped, to wait out its backoff. Pods that were queued for it
     meanwhile join it; where both know a pod, the entry that was popped wins.
    */
    method AddUnitPreemptor(unit: Unit, now: int)
      requires Valid() && UnitOk(unit, unit.key, keyOf)
      modifies this
      ensures Valid() && list == old(list)
      ensures unit.key in View() && View() == old(View())[unit.key := Slot(BackoffQ, View()[unit.key].unit)]
      ensures Merged(unit, old(At(View(), unit.key)), View()[unit.key].unit)
      ensures View()[unit.key].unit.timestamp == now && View()[unit.key].unit.attempts == unit.attempts
      ensures forall id :: Has(id) <==>
        old(Has(id)) || (id in unit.pods && (!unit.key.single || unit.key !in old(View())))
      ensures owed == old(owed) + if !unit.key.single || unit.key !in old(View()) then unit.pods.Keys else {}
      ensures forall env: Env :: old(OnlyPoppable(View(), env)) ==> OnlyPoppable(View(), env)
    {
      hide ViewOf, ViewOk, InUnit, ListOk, Merged, OnlyPoppable;
      ghost var view := View();
      var k := unit.key;
      var found := GetUnit(k);
      KeyIs(view, keyOf, k);
      var merged := Merge(unit.(timestamp := now), found, keyOf);
      if found.Some? {
        Take(found.value.heap, k);
      }
      Put(BackoffQ, merged);
      assert (view - {k})[k := Slot(BackoffQ, merged)] == view[k := Slot(BackoffQ, merged)];
      ViewGrows(view, keyOf, Slot(BackoffQ, merged));
      owed := owed + if !k.single || k !in view then unit.pods.Keys else {};
      forall id
        ensures Has(id) <==> old(Has(id)) || (id in unit.pods && (!k.single || k !in view))
      {
        MergedHas(view, keyOf, unit, merged, id);
      }
      MergedStamp(unit, now, At(view, k), merged);
      forall env: Env | old(OnlyPoppable(View(), env))
        ensures OnlyPoppable(View(), env)
      {
        PutBackKeepsPoppable(view, k, merged, env);
      }
    }

    /** Lets a waiting unit become ready, if it may be popped. */
    method ActiveWaitingUnit(k: Key, env: Env)
      requires Valid()
      modifies this`waiting, this`backoff, this`ready
      ensures Valid()
      ensures forall id :: Has(id) <==> old(Has(id))
      ensures
        if old(k in View() && View()[k].heap == WaitingQ && MayBePopped(View()[k].unit, env))
        then View() == old(View())[k := Slot(ReadyQ, old(View())[k].unit)]
        else View() == old(View())
      ensures Tended(old(View()), View(), env)
    {
      hide ViewOf, ViewOk, ListOk, InUnit, Tended;
      ghost var view := View();
      var found := GetUnit(k);
      TendedSame(view, env);
      if found == None || found.value.heap != WaitingQ || !MayBePopped(found.value.unit, env) {
        return;
      }
      KeyIs(view, keyOf, k);
      Take(WaitingQ, k);
      Put(ReadyQ, found.value.unit);
      assert (view - {k})[k := Slot(ReadyQ, found.value.unit)] == view[k := Slot(ReadyQ, found.value.unit)];
      MovedView(view, keyOf, k, ReadyQ);
      ActivatedTended(view, k, env);
    }

    lemma ViewIsOk()
      requires Valid()
      ensures ViewOk(View(), keyOf)
    {
    }

    lemma IsApart()
      requires Valid()
      ensures Apart()
    {
    }

    method Ripen(k: Key)
      requires Valid() && k in backoff
      modifies this`backoff, this`ready
      ensures Valid()
      ensures forall id :: Has(id) <==> old(Has(id))
      ensures backoff == old(backoff) - {k} && ready == old(ready)[k := old(backoff)[k]]
    {
      hide ViewOf, ViewOk, ListOk, InUnit;
      ghost var view := View();
      BackoffInView(waiting, backoff, ready, k);
      MovedView(view, keyOf, k, ReadyQ);
      backoff, ready := backoff - {k}, ready[k := backoff[k]];
      assert View() == view[k := Slot(ReadyQ, view[k].unit)];
    }

    /**
     Moves exactly the units whose backoff is over, earliest first, to the ready heap. It does not
     ask whether they may be popped: that the ready heap holds only such units stays true exactly
     if each of them may.
    */
    method MoveToReadyQueue(now: int)
      requires Valid()
      modifies this`backoff, this`ready
      ensures Valid()
      ensures forall id :: Has(id) <==> old(Has(id))
      ensures Pumped(old(View()), View(), now, Over(initialBackoff, maxBackoff))
      ensures forall env: Env :: old(OnlyPoppable(View(), env)) ==>
        (OnlyPoppable(View(), env) <==> old(AllRipePoppable(View(), now, Over(initialBackoff, maxBackoff), env)))
    {
      hide ViewOf, ViewOk, ListOk, InUnit, Pumping, Pumped, OnlyPoppable, AllRipePoppable, Over, PriorityQueue.Sound;
      IsApart();
      ghost var view, b0, r0 := View(), backoff, ready;
      var over := Over(initialBackoff, maxBackoff);
      PumpStarts(backoff, ready, now, over);
      while backoff.Keys != {}
        invariant Valid() && (forall id :: Has(id) <==> old(Has(id)))
        invariant Pumping(b0, r0, backoff, ready, now, over)
        decreases |backoff|
      {
        var k := Earliest(backoff, over);
        if over(backoff[k]) > now {
          break;
        }
        PumpStep(b0, r0, backoff, ready, now, over, k);
        Smaller(backoff, k);
        Ripen(k);
      }
      PumpedHeaps(waiting, b0, r0, backoff, ready, now, over);
      forall env: Env | OnlyPoppable(view, env)
        ensures OnlyPoppable(View(), env) <==> AllRipePoppable(view, now, over, env)
      {
        PoppableAfterPump(view, View(), now, over, env);
      }
    }
  }
}
