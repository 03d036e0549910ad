/**
 Which heap the units are in, over every sequence of queue operations, while the scheduling
 status of PodGroups changes in between.

 A unit goes astray when it is ready, or in backoff and hence ready later, although it has too
 few pods and was never scheduled. A unit is held back when it waits although it may be popped.
 For both, the operations that make it happen are known exactly, and from what is there before
 the operation.
*/
module QueueRuns {

  import opened BinderTypes
  import opened BinderQueue

  type View = map<Key, Slot>

  ghost predicate NoStrays(view: View, env: Env) {
    forall k :: k in view ==> !Stray(view[k], env)
  }

  /** The waiting heap holds only units that may not be popped. */
  ghost predicate WaitsRightly(view: View, env: Env) {
    forall k :: k in view ==> !HeldBack(view[k], env)
  }

  /**
   What happens to the heaps. Adding, popping, trying the list again and activating a unit tend
   them; `Refresh` replaces a pod in its unit; `Status` is a PodGroup becoming known as
   scheduled, or as not scheduled.
  */
  datatype Op =
    | Tend
    | Refresh(pod: PodInfo)
    | Remove(uid: Uid)
    | PutBack(unit: Unit)
    | Pump(now: int)
    | Status(key: Key, on: bool)

  ghost predicate SameStatus(env: Env, env': Env) {
    forall k :: env'.scheduled(k) <==> env.scheduled(k)
  }

  ghost predicate Effect(
    op: Op, view: View, env: Env, view': View, env': Env, keyOf: Uid -> Key, over: Unit -> int)
  {
    match op
    case Tend => Tended(view, view', env) && SameStatus(env, env')
    case Refresh(pod) =>
      InUnit(view, keyOf, pod.uid) && view' == RefreshedView(view, keyOf, pod, env) && SameStatus(env, env')
    case Remove(uid) => view' == Deleted(view, keyOf, uid, env) && SameStatus(env, env')
    case PutBack(unit) =>
      && UnitOk(unit, unit.key, keyOf) && unit.key in view'
      && view' == view[unit.key := Slot(BackoffQ, view'[unit.key].unit)]
      && Merged(unit, At(view, unit.key), view'[unit.key].unit)
      && SameStatus(env, env')
    case Pump(now) => Pumped(view, view', now, over) && SameStatus(env, env')
    case Status(key, on) =>
      view' == view && forall k :: env'.scheduled(k) <==> if k == key then on else env.scheduled(k)
  }

  lemma SameVerdicts(view: View, env: Env, env': Env)
    requires SameStatus(env, env')
    ensures NoStrays(view, env') <==> NoStrays(view, env)
    ensures WaitsRightly(view, env') <==> WaitsRightly(view, env)
  {
    assert forall u: Unit :: MayBePopped(u, env') <==> MayBePopped(u, env);
  }

  // ---- units that may not be popped

  /**
   An operation that sends no unit astray: a deletion takes no pod from a minimum outside the
   waiting heap, what is put back is enough, and a status is taken away from no unit that
   needs it.
  */
  ghost predicate Harmless(op: Op, view: View, env: Env, keyOf: Uid -> Key) {
    match op
    case Remove(uid) =>
      var before := At(view, keyOf(uid));
      !(LosesMinimum(before, uid, env) && before.value.heap != WaitingQ)
    case PutBack(unit) => Enough(unit, At(view, unit.key), env)
    case Status(k, on) => !on ==> !NeedsStatus(view, k)
    case _ => true
  }

  /** A unit outside the waiting heap that may be popped only because its PodGroup was scheduled. */
  ghost predicate NeedsStatus(view: View, k: Key) {
    k in view && view[k].heap != WaitingQ && !ReadyToBePopulated(view[k].unit)
  }

  lemma StrayAfterDelete(before: Slot, k: Key, uid: Uid, keyOf: Uid -> Key, env: Env)
    requires UnitOk(before.unit, k, keyOf) && !Stray(before, env)
    ensures
      var after := AfterDelete(before, uid, env);
      (after.Some? && Stray(after.value, env)) <==> LosesMinimum(Some(before), uid, env) && before.heap != WaitingQ
  {
    if |before.unit.pods| != 1 {
      DeleteCounts(before.unit, k, uid, keyOf);
    }
  }

  lemma RemoveStrays(view: View, keyOf: Uid -> Key, uid: Uid, env: Env)
    requires ViewOk(view, keyOf) && NoStrays(view, env)
    ensures NoStrays(Deleted(view, keyOf, uid, env), env) <==> Harmless(Remove(uid), view, env, keyOf)
  {
    hide Stray, AfterDelete, LosesMinimum, UnitOk;
    var k, view' := keyOf(uid), Deleted(view, keyOf, uid, env);
    assert forall j :: j in view' && j != k ==> j in view && view'[j] == view[j];
    if k in view {
      StrayAfterDelete(view[k], k, uid, keyOf, env);
      var after := AfterDelete(view[k], uid, env);
      assert k in view' <==> after.Some?;
      assert after.Some? ==> view'[k] == after.value;
    } else {
      NothingLost(uid, env);
    }
  }

  lemma NothingLost(uid: Uid, env: Env)
    ensures !LosesMinimum(None, uid, env)
  {
  }

  lemma PumpStrays(view: View, view': View, now: int, over: Unit -> int, env: Env)
    requires Pumped(view, view', now, over) && NoStrays(view, env)
    ensures NoStrays(view', env)
  {
    forall k | k in view'
      ensures !Stray(view'[k], env)
    {
      assert k in view;
    }
  }

  lemma PutBackStrays(view: View, view': View, unit: Unit, keyOf: Uid -> Key, env: Env)
    requires ViewOk(view, keyOf) && UnitOk(unit, unit.key, keyOf) && NoStrays(view, env) && unit.key in view'
    requires view' == view[unit.key := Slot(BackoffQ, view'[unit.key].unit)]
    requires Merged(unit, At(view, unit.key), view'[unit.key].unit)
    ensures NoStrays(view', env) <==> Enough(unit, At(view, unit.key), env)
  {
    hide UnitOk, Merged, Enough, MayBePopped;
    MergedPoppable(unit, At(view, unit.key), view'[unit.key].unit, keyOf, env);
    assert NoStrays(view', env) ==> !Stray(view'[unit.key], env);
  }

  lemma RefreshStrays(view: View, keyOf: Uid -> Key, pod: PodInfo, env: Env)
    requires ViewOk(view, keyOf) && InUnit(view, keyOf, pod.uid) && NoStrays(view, env)
    ensures NoStrays(RefreshedView(view, keyOf, pod, env), env)
  {
    hide AddPod, Carries, NoStrays;
    var slot := view[keyOf(pod.uid)];
    UpdatedInPlace(view, map[], keyOf, pod, slot, env);
    UpdatedNoWorse(view, keyOf(pod.uid), AddPod(slot.unit, Refreshed(slot.unit.pods[pod.uid], pod)), env);
    NoWorseNoStrays(view, RefreshedView(view, keyOf, pod, env), env);
  }

  lemma NoWorseNoStrays(view: View, view': View, env: Env)
    requires NoWorse(view, view', env) && NoStrays(view, env)
    ensures NoStrays(view', env)
  {
  }

  lemma StatusStrays(view: View, keyOf: Uid -> Key, env: Env, env': Env, key: Key, on: bool)
    requires ViewOk(view, keyOf) && NoStrays(view, env)
    requires forall k :: env'.scheduled(k) <==> if k == key then on else env.scheduled(k)
    ensures NoStrays(view, env') <==> Harmless(Status(key, on), view, env, keyOf)
  {
    hide ReadyToBePopulated;
    if key in view {
      assert view[key].unit.key == key;
      assert NoStrays(view, env') ==> !Stray(view[key], env');
    }
    assert forall k :: k in view && k != key ==> (Stray(view[k], env') <==> Stray(view[k], env));
  }

  /** One operation on heaps without a stray leaves one exactly if it is harmful. */
  lemma StepStrays(
    op: Op, view: View, env: Env, view': View, env': Env, keyOf: Uid -> Key, over: Unit -> int)
    requires ViewOk(view, keyOf) && NoStrays(view, env) && Effect(op, view, env, view', env', keyOf, over)
    ensures NoStrays(view', env') <==> Harmless(op, view, env, keyOf)
  {
    hide NoStrays, WaitsRightly, UnitOk, Merged, Enough, LosesMinimum, NeedsStatus, NoWorse;
    if !op.Status? {
      SameVerdicts(view', env, env');
    }
    match op
    case Tend => NoWorseNoStrays(view, view', env);
    case Refresh(pod) => RefreshStrays(view, keyOf, pod, env);
    case Remove(uid) => RemoveStrays(view, keyOf, uid, env);
    case PutBack(unit) => PutBackStrays(view, view', unit, keyOf, env);
    case Pump(now) => PumpStrays(view, view', now, over, env);
    case Status(key, on) => StatusStrays(view, keyOf, env, env', key, on);
  }

  // ---- units that may be popped but wait

  /** A ready unit of a PodGroup that was scheduled before and has fewer pods than its minimum. */
  ghost predicate Demoted(heap: HeapName, unit: Unit, env: Env) {
    heap == ReadyQ && !ReadyToBePopulated(unit) && env.scheduled(unit.key)
  }

  /** An operation that holds no unit back: it demotes none, and gives no status to one that waits. */
  ghost predicate Timely(op: Op, view: View, env: Env, keyOf: Uid -> Key) {
    match op
    case Remove(uid) =>
      var k := keyOf(uid);
      !(k in view && |view[k].unit.pods| != 1 && Demoted(view[k].heap, DeletePod(view[k].unit, uid), env))
    case Refresh(pod) =>
      var k := keyOf(pod.uid);
      !(k in view && Demoted(view[k].heap, view[k].unit, env))
    case Status(k, on) => !(on && k in view && view[k].heap == WaitingQ)
    case _ => true
  }

  /** Deleting a pod makes a unit wait that may be popped exactly if it was scheduled before and too few are left. */
  lemma WaitsRightlyAfterDelete(view: View, keyOf: Uid -> Key, uid: Uid, env: Env)
    requires ViewOk(view, keyOf) && WaitsRightly(view, env)
    ensures WaitsRightly(Deleted(view, keyOf, uid, env), env) <==> Timely(Remove(uid), view, env, keyOf)
  {
    hide DeletePod, ReadyToBePopulated, MayBePopped;
    var k, view' := keyOf(uid), Deleted(view, keyOf, uid, env);
    if k in view && |view[k].unit.pods| != 1 {
      SlotAfterDelete(view, keyOf, uid, env);
    }
    assert forall j :: j in view' && j != k ==> j in view && view'[j] == view[j];
  }

  lemma SlotAfterDelete(view: View, keyOf: Uid -> Key, uid: Uid, env: Env)
    requires ViewOk(view, keyOf) && WaitsRightly(view, env) && keyOf(uid) in view && |view[keyOf(uid)].unit.pods| != 1
    ensures
      var before, view' := view[keyOf(uid)], Deleted(view, keyOf, uid, env);
      && keyOf(uid) in view'
      && (HeldBack(view'[keyOf(uid)], env) <==> Demoted(before.heap, DeletePod(before.unit, uid), env))
  {
    var before := view[keyOf(uid)];
    DeleteCounts(before.unit, keyOf(uid), uid, keyOf);
  }

  /** Updating a pod in place does the same to a ready unit that has too few pods. */
  lemma WaitsRightlyAfterUpdate(view: View, keyOf: Uid -> Key, pod: PodInfo, env: Env)
    requires ViewOk(view, keyOf) && WaitsRightly(view, env) && InUnit(view, keyOf, pod.uid)
    ensures WaitsRightly(RefreshedView(view, keyOf, pod, env), env) <==> Timely(Refresh(pod), view, env, keyOf)
  {
    hide AddPod, Carries, ViewOk, HeldBack, HeapAfter, Demoted;
    var k := keyOf(pod.uid);
    var slot := view[k];
    UpdatedInPlace(view, map[], keyOf, pod, slot, env);
    var unit := AddPod(slot.unit, Refreshed(slot.unit.pods[pod.uid], pod));
    SlotAfterUpdate(slot, unit, env);
    OneSlotDecides(view, k, Slot(HeapAfter(slot.heap, unit, env), unit), env);
  }

  lemma OneSlotDecides(view: View, k: Key, slot: Slot, env: Env)
    requires WaitsRightly(view, env)
    ensures WaitsRightly(view[k := slot], env) <==> !HeldBack(slot, env)
  {
    hide HeldBack;
    var view' := view[k := slot];
    assert view'[k] == slot && forall j :: j in view' && j != k ==> j in view && view'[j] == view[j];
  }

  lemma SlotAfterUpdate(slot: Slot, unit: Unit, env: Env)
    requires unit.key == slot.unit.key && unit.minMember == slot.unit.minMember && |unit.pods| == |slot.unit.pods|
    requires !HeldBack(slot, env)
    ensures HeldBack(Slot(HeapAfter(slot.heap, unit, env), unit), env) <==> Demoted(slot.heap, slot.unit, env)
  {
  }

  lemma StatusWaits(view: View, keyOf: Uid -> Key, env: Env, env': Env, key: Key, on: bool)
    requires ViewOk(view, keyOf) && WaitsRightly(view, env)
    requires forall k :: env'.scheduled(k) <==> if k == key then on else env.scheduled(k)
    ensures WaitsRightly(view, env') <==> Timely(Status(key, on), view, env, keyOf)
  {
    hide ReadyToBePopulated;
    if key in view {
      assert view[key].unit.key == key;
      assert WaitsRightly(view, env') ==> !HeldBack(view[key], env');
    }
    assert forall k :: k in view && k != key ==> (HeldBack(view[k], env') <==> HeldBack(view[k], env));
  }

  lemma OthersWait(
    op: Op, view: View, env: Env, view': View, env': Env, keyOf: Uid -> Key, over: Unit -> int)
    requires WaitsRightly(view, env) && Effect(op, view, env, view', env', keyOf, over)
    requires op.Tend? || op.PutBack? || op.Pump?
    ensures WaitsRightly(view', env)
  {
    hide MayBePopped, UnitOk, Merged, NoWorse;
    forall k | k in view'
      ensures !HeldBack(view'[k], env)
    {
      assert op.Pump? ==> k in view;
    }
  }

  /** One operation on heaps that hold nothing back holds a unit back exactly if it is untimely. */
  lemma StepWaits(
    op: Op, view: View, env: Env, view': View, env': Env, keyOf: Uid -> Key, over: Unit -> int)
    requires ViewOk(view, keyOf) && WaitsRightly(view, env) && Effect(op, view, env, view', env', keyOf, over)
    ensures WaitsRightly(view', env') <==> Timely(op, view, env, keyOf)
  {
    hide NoStrays, WaitsRightly, UnitOk, Merged, Tended, Pumped, Demoted;
    if !op.Status? {
      SameVerdicts(view', env, env');
    }
    match op
    case Refresh(pod) => WaitsRightlyAfterUpdate(view, keyOf, pod, env);
    case Remove(uid) => WaitsRightlyAfterDelete(view, keyOf, uid, env);
    case Status(key, on) => StatusWaits(view, keyOf, env, env', key, on);
    case _ => OthersWait(op, view, env, view', env', keyOf, over);
  }

  // ---- over every sequence of operations

  ghost predicate IsRun(views: seq<View>, envs: seq<Env>, ops: seq<Op>, keyOf: Uid -> Key, over: Unit -> int) {
    && |views| == |ops| + 1 && |envs| == |ops| + 1
    && (forall j :: 0 <= j < |views| ==> ViewOk(views[j], keyOf))
    && (forall j :: 0 <= j < |ops| ==> Effect(ops[j], views[j], envs[j], views[j + 1], envs[j + 1], keyOf, over))
  }

  ghost predicate AllHarmless(views: seq<View>, envs: seq<Env>, ops: seq<Op>, keyOf: Uid -> Key, k: nat)
    requires |views| == |ops| + 1 && |envs| == |ops| + 1
  {
    forall j :: 0 <= j < k && j < |ops| ==> Harmless(ops[j], views[j], envs[j], keyOf)
  }

  ghost predicate AllTimely(views: seq<View>, envs: seq<Env>, ops: seq<Op>, keyOf: Uid -> Key, k: nat)
    requires |views| == |ops| + 1 && |envs| == |ops| + 1
  {
    forall j :: 0 <= j < k && j < |ops| ==> Timely(ops[j], views[j], envs[j], keyOf)
  }

  lemma {:induction false} HarmlessSoFar(
    views: seq<View>, envs: seq<Env>, ops: seq<Op>, keyOf: Uid -> Key, over: Unit -> int, k: nat)
    requires IsRun(views, envs, ops, keyOf, over) && NoStrays(views[0], envs[0])
    requires k < |views| && AllHarmless(views, envs, ops, keyOf, k)
    ensures NoStrays(views[k], envs[k])
  {
    hide NoStrays, Effect, Harmless, ViewOk;
    if k > 0 {
      HarmlessSoFar(views, envs, ops, keyOf, over, k - 1);
      assert Effect(ops[k - 1], views[k - 1], envs[k - 1], views[k - 1 + 1], envs[k - 1 + 1], keyOf, over);
      assert Harmless(ops[k - 1], views[k - 1], envs[k - 1], keyOf);
      StepStrays(ops[k - 1], views[k - 1], envs[k - 1], views[k], envs[k], keyOf, over);
    }
  }

  /** No unit is ever astray if and only if no operation is harmful. */
  lemma StraysOverRuns(views: seq<View>, envs: seq<Env>, ops: seq<Op>, keyOf: Uid -> Key, over: Unit -> int)
    requires IsRun(views, envs, ops, keyOf, over) && NoStrays(views[0], envs[0])
    ensures (forall k :: 0 <= k < |views| ==> NoStrays(views[k], envs[k])) <==>
      AllHarmless(views, envs, ops, keyOf, |ops|)
  {
    hide NoStrays, Effect, Harmless, ViewOk;
    if AllHarmless(views, envs, ops, keyOf, |ops|) {
      forall k | 0 <= k < |views|
        ensures NoStrays(views[k], envs[k])
      {
        HarmlessSoFar(views, envs, ops, keyOf, over, k);
      }
    }
    if forall k :: 0 <= k < |views| ==> NoStrays(views[k], envs[k]) {
      forall j | 0 <= j < |ops|
        ensures Harmless(ops[j], views[j], envs[j], keyOf)
      {
        assert Effect(ops[j], views[j], envs[j], views[j + 1], envs[j + 1], keyOf, over);
        StepStrays(ops[j], views[j], envs[j], views[j + 1], envs[j + 1], keyOf, over);
      }
    }
  }

  /** Then the ready heap never holds a unit that may not be popped. */
  lemma PoppableOverRuns(
    views: seq<View>, envs: seq<Env>, ops: seq<Op>, keyOf: Uid -> Key, over: Unit -> int, k: nat)
    requires IsRun(views, envs, ops, keyOf, over) && NoStrays(views[0], envs[0])
    requires AllHarmless(views, envs, ops, keyOf, |ops|) && k < |views|
    ensures OnlyPoppable(views[k], envs[k])
  {
    hide Effect, Harmless, ViewOk;
    HarmlessSoFar(views, envs, ops, keyOf, over, k);
  }

  lemma {:induction false} TimelySoFar(
    views: seq<View>, envs: seq<Env>, ops: seq<Op>, keyOf: Uid -> Key, over: Unit -> int, k: nat)
    requires IsRun(views, envs, ops, keyOf, over) && WaitsRightly(views[0], envs[0])
    requires k < |views| && AllTimely(views, envs, ops, keyOf, k)
    ensures WaitsRightly(views[k], envs[k])
  {
    hide WaitsRightly, Effect, Timely, ViewOk;
    if k > 0 {
      TimelySoFar(views, envs, ops, keyOf, over, k - 1);
      assert Effect(ops[k - 1], views[k - 1], envs[k - 1], views[k - 1 + 1], envs[k - 1 + 1], keyOf, over);
      assert Timely(ops[k - 1], views[k - 1], envs[k - 1], keyOf);
      StepWaits(ops[k - 1], views[k - 1], envs[k - 1], views[k], envs[k], keyOf, over);
    }
  }

  /** No unit is ever held back if and only if every operation is timely. */
  lemma WaitsOverRuns(views: seq<View>, envs: seq<Env>, ops: seq<Op>, keyOf: Uid -> Key, over: Unit -> int)
    requires IsRun(views, envs, ops, keyOf, over) && WaitsRightly(views[0], envs[0])
    ensures (forall k :: 0 <= k < |views| ==> WaitsRightly(views[k], envs[k])) <==>
      AllTimely(views, envs, ops, keyOf, |ops|)
  {
    hide WaitsRightly, Effect, Timely, ViewOk;
    if AllTimely(views, envs, ops, keyOf, |ops|) {
      forall k | 0 <= k < |views|
        ensures WaitsRightly(views[k], envs[k])
      {
        TimelySoFar(views, envs, ops, keyOf, over, k);
      }
    }
    if forall k :: 0 <= k < |views| ==> WaitsRightly(views[k], envs[k]) {
      forall j | 0 <= j < |ops|
        ensures Timely(ops[j], views[j], envs[j], keyOf)
      {
        assert Effect(ops[j], views[j], envs[j], views[j + 1], envs[j + 1], keyOf, over);
        StepWaits(ops[j], views[j], envs[j], views[j + 1], envs[j + 1], keyOf, over);
      }
    }
  }

  // ---- minimums

  /** Where a unit has its minimum from: its PodGroup, when it was created, or the unit that was put back. */
  ghost predicate HasMinimumFrom(op: Op, view: View, env: Env, view': View, k: Key)
    requires k in view'
  {
    if op.PutBack? && op.unit.key == k then view'[k].unit.minMember == op.unit.minMember
    else if k in view then view'[k].unit.minMember == view[k].unit.minMember
    else op.Tend? && view'[k].unit.minMember == Asks(k, env)
  }

  lemma StepMinimums(
    op: Op, view: View, env: Env, view': View, env': Env, keyOf: Uid -> Key, over: Unit -> int, k: Key)
    requires ViewOk(view, keyOf) && Effect(op, view, env, view', env', keyOf, over) && k in view'
    ensures HasMinimumFrom(op, view, env, view', k)
  {
    hide NoWorse, HeldBack, UnitOk, SameStatus;
    match op
    case Refresh(pod) => assert k != keyOf(pod.uid) ==> view'[k] == view[k];
    case Remove(uid) => assert k != keyOf(uid) ==> view'[k] == view[k];
    case _ =>
  }

  /** The view a unit came into, with the minimum it has ever since. */
  ghost predicate Begins(views: seq<View>, envs: seq<Env>, ops: seq<Op>, j: nat, k: Key)
    requires |views| == |ops| + 1 && |envs| == |ops| + 1 && j < |views| && k in views[j]
  {
    || j == 0
    || (ops[j - 1].PutBack? && ops[j - 1].unit.key == k && views[j][k].unit.minMember == ops[j - 1].unit.minMember)
    || (ops[j - 1].Tend? && k !in views[j - 1] && views[j][k].unit.minMember == Asks(k, envs[j - 1]))
  }

  /** While a unit is queued it keeps the minimum its PodGroup had when it was created, or that it was put back with. */
  lemma {:induction false} MinimumsOverRuns(
    views: seq<View>, envs: seq<Env>, ops: seq<Op>, keyOf: Uid -> Key, over: Unit -> int, n: nat, k: Key)
    returns (j: nat)
    requires IsRun(views, envs, ops, keyOf, over) && n < |views| && k in views[n]
    ensures j <= n && k in views[j] && Begins(views, envs, ops, j, k)
    ensures forall i :: j <= i <= n ==> k in views[i] && views[i][k].unit.minMember == views[n][k].unit.minMember
  {
    hide Effect, ViewOk;
    if n == 0 {
      return 0;
    }
    assert Effect(ops[n - 1], views[n - 1], envs[n - 1], views[n - 1 + 1], envs[n - 1 + 1], keyOf, over);
    StepMinimums(ops[n - 1], views[n - 1], envs[n - 1], views[n], envs[n], keyOf, over, k);
    if Begins(views, envs, ops, n, k) {
      return n;
    }
    j := MinimumsOverRuns(views, envs, ops, keyOf, over, n - 1, k);
  }

  // ---- the queue at work

  /** A call on the queue, with what the PodGroup lister says then, or a change of a scheduling status. */
  datatype Call =
    | Adding(pod: PodInfo, sizes: Key -> Option<int>)
    | Updating(known: bool, pod: PodInfo, sizes: Key -> Option<int>)
    | Deleting(uid: Uid)
    | Popping
    | Retrying(sizes: Key -> Option<int>)
    | PuttingBack(unit: Unit, now: int)
    | Activating(key: Key)
    | Ripening(now: int)
    | Marking(key: Key, on: bool)

  function SizesOf(call: Call): Key -> Option<int> {
    match call
    case Adding(_, sizes) => sizes
    case Updating(_, _, sizes) => sizes
    case Retrying(sizes) => sizes
    case _ => (k: Key) => None
  }

  function Marked(scheduled: Key -> bool, key: Key, on: bool): Key -> bool {
    (k: Key) => if k == key then on else scheduled(k)
  }

  method Perform(q: PriorityQueue, call: Call, scheduled: Key -> bool) returns (scheduled': Key -> bool, ghost op: Op)
    requires q.Valid() && (call.PuttingBack? ==> UnitOk(call.unit, call.unit.key, q.keyOf))
    modifies q
    ensures q.Valid()
    ensures forall sizes: Key -> Option<int> ::
      Effect(op, old(q.View()), Env(SizesOf(call), scheduled), q.View(), Env(sizes, scheduled'), q.keyOf,
             Over(q.initialBackoff, q.maxBackoff))
    ensures op.PutBack? ==> call.PuttingBack? && op.unit == call.unit
  {
    hide PriorityQueue.Sound, UnitOk, Tended, Merged, Pumped, ViewOf, Over, Carries, Inserted, Joined, NoWorse, Replaced,
         OnlyPoppable, Deleted;
    var env := Env(SizesOf(call), scheduled);
    scheduled', op := scheduled, Tend;
    match call {
      case Adding(pod, _) =>
        var ok := q.Add(pod, env);
      case Updating(known, pod, _) =>
        if known && InUnit(q.View(), q.keyOf, pod.uid) {
          op := Refresh(pod);
        }
        q.Update(known, pod, env);
      case Deleting(uid) =>
        op := Remove(uid);
        q.Delete(uid, env);
      case Popping =>
        var unit := q.Pop();
      case Retrying(_) =>
        q.CheckWaitingPods(env);
      case PuttingBack(unit, now) =>
        op := PutBack(unit);
        q.AddUnitPreemptor(unit, now);
      case Activating(key) =>
        q.ActiveWaitingUnit(key, env);
      case Ripening(now) =>
        op := Pump(now);
        q.MoveToReadyQueue(now);
      case Marking(key, on) =>
        op := Status(key, on);
        scheduled' := Marked(scheduled, key, on);
    }
  }

  /** Whatever is called in whatever order, the heaps go through a run. */
  method PerformAll(q: PriorityQueue, calls: seq<Call>, scheduled: Key -> bool)
    returns (ghost views: seq<View>, ghost envs: seq<Env>, ghost ops: seq<Op>)
    requires q.Valid()
    requires forall i :: 0 <= i < |calls| && calls[i].PuttingBack? ==>
      UnitOk(calls[i].unit, calls[i].unit.key, q.keyOf)
    modifies q
    ensures q.Valid() && |ops| == |calls|
    ensures IsRun(views, envs, ops, q.keyOf, Over(q.initialBackoff, q.maxBackoff))
    ensures views[0] == old(q.View()) && views[|ops|] == q.View()
    ensures forall i :: 0 <= i < |ops| && ops[i].PutBack? ==> calls[i].PuttingBack? && ops[i].unit == calls[i].unit
  {
    hide Effect, UnitOk, ViewOk, Over;
    var status := scheduled;
    views, envs, ops := [q.View()], [Env(if calls == [] then _ => None else SizesOf(calls[0]), scheduled)], [];
    q.ViewIsOk();
    for i := 0 to |calls|
      invariant q.Valid() && |ops| == i && IsRun(views, envs, ops, q.keyOf, Over(q.initialBackoff, q.maxBackoff))
      invariant views[0] == old(q.View()) && views[i] == q.View()
      invariant envs[i].scheduled == status && (i < |calls| ==> envs[i].minMember == SizesOf(calls[i]))
      invariant forall j :: 0 <= j < i && ops[j].PutBack? ==> calls[j].PuttingBack? && ops[j].unit == calls[j].unit
    {
      ghost var before := status;
      ghost var op;
      status, op := Perform(q, calls[i], status);
      q.ViewIsOk();
      ghost var env := Env(if i + 1 < |calls| then SizesOf(calls[i + 1]) else _ => None, status);
      assert envs[i] == Env(SizesOf(calls[i]), before);
      GoesOn(views, envs, ops, q.keyOf, Over(q.initialBackoff, q.maxBackoff), q.View(), env, op);
      views, envs, ops := views + [q.View()], envs + [env], ops + [op];
    }
  }

  lemma GoesOn(
    views: seq<View>, envs: seq<Env>, ops: seq<Op>, keyOf: Uid -> Key, over: Unit -> int, view: View, env: Env, op: Op)
    requires IsRun(views, envs, ops, keyOf, over) && ViewOk(view, keyOf)
    requires Effect(op, views[|ops|], envs[|ops|], view, env, keyOf, over)
    ensures IsRun(views + [view], envs + [env], ops + [op], keyOf, over)
  {
    hide Effect, ViewOk;
  }

  // ---- the harmful cases exist

  const GROUP := Key(false, "group")
  const NEVER := Env(_ => Some(2), _ => false)
  const BEFORE := Env(_ => Some(2), _ => true)
  const RESET := Env(_ => Some(2), (k: Key) => k != GROUP)
  const MARKED := Env(_ => Some(2), (k: Key) => k == GROUP)

  function Members(n: nat): Unit {
    Unit(GROUP, 2, if n == 2 then map[1 := PodInfo(1, 0, 0), 2 := PodInfo(2, 0, 0)] else map[1 := PodInfo(1, 0, 0)], 0, 0)
  }

  lemma MembersAre()
    ensures |Members(2).pods| == 2 && |Members(1).pods| == 1 && 1 in Members(2).pods && 2 in Members(2).pods
    ensures DeletePod(Members(2), 2) == Members(1)
    ensures UnitOk(Members(2), GROUP, _ => GROUP)
  {
    var two, one := Members(2).pods, Members(1).pods;
    assert two.Keys == {1, 2} && one.Keys == {1} && |two.Keys| == |two| && |one.Keys| == |one|;
    assert two - {2} == one;
    assert 1 in two;
  }

  /** A PodGroup of two, not scheduled yet, loses a pod while it is ready, and stays there. */
  lemma DeleteMayStrand() returns (view: View)
    ensures ViewOk(view, _ => GROUP) && OnlyPoppable(view, NEVER)
    ensures !OnlyPoppable(Deleted(view, _ => GROUP, 2, NEVER), NEVER)
  {
    MembersAre();
    view := map[GROUP := Slot(ReadyQ, Members(2))];
    var view' := Deleted(view, _ => GROUP, 2, NEVER);
    assert view'[GROUP] == Slot(ReadyQ, Members(1));
  }

  /** It loses a pod while it is in backoff: nothing shows until the pump makes it ready. */
  lemma PumpMayStrand() returns (view: View, later: View)
    ensures ViewOk(view, _ => GROUP) && OnlyPoppable(view, NEVER)
    ensures
      var view' := Deleted(view, _ => GROUP, 2, NEVER);
      && !FallsShort(At(view, GROUP), 2, NEVER) && OnlyPoppable(view', NEVER)
      && Pumped(view', later, 0, (u: Unit) => u.timestamp) && !OnlyPoppable(later, NEVER)
  {
    MembersAre();
    view := map[GROUP := Slot(BackoffQ, Members(2))];
    var view' := Deleted(view, _ => GROUP, 2, NEVER);
    assert view' == map[GROUP := Slot(BackoffQ, Members(1))];
    later := map[GROUP := Slot(ReadyQ, Members(1))];
    assert later[GROUP].heap == ReadyQ;
  }

  /** A PodGroup known as scheduled has one pod in backoff; an event that says otherwise sends it astray. */
  lemma StatusMayStrand() returns (view: View)
    ensures ViewOk(view, _ => GROUP) && NoStrays(view, BEFORE) && !NoStrays(view, RESET)
    ensures Effect(Status(GROUP, false), view, BEFORE, view, RESET, _ => GROUP, u => 0)
  {
    MembersAre();
    view := map[GROUP := Slot(BackoffQ, Members(1))];
    assert 1 in Members(1).pods && Stray(view[GROUP], RESET);
  }

  /** A PodGroup of which a pod waits becomes known as scheduled: until something activates it, it is held back. */
  lemma StatusMayHoldBack() returns (view: View)
    ensures ViewOk(view, _ => GROUP) && WaitsRightly(view, NEVER) && !WaitsRightly(view, MARKED)
    ensures Effect(Status(GROUP, true), view, NEVER, view, MARKED, _ => GROUP, u => 0)
  {
    MembersAre();
    view := map[GROUP := Slot(WaitingQ, Members(1))];
    assert 1 in Members(1).pods && HeldBack(view[GROUP], MARKED);
  }

  /** A ready PodGroup that was scheduled before loses a pod, and waits although it may be popped. */
  lemma DeleteMayDemote() returns (view: View)
    ensures ViewOk(view, _ => GROUP) && WaitsRightly(view, BEFORE)
    ensures !WaitsRightly(Deleted(view, _ => GROUP, 2, BEFORE), BEFORE)
  {
    MembersAre();
    view := map[GROUP := Slot(ReadyQ, Members(2))];
    WaitsRightlyAfterDelete(view, _ => GROUP, 2, BEFORE);
  }
}
