/**
 The bookkeeping of one binding attempt of a unit.

 `place` and `info` are the specification: one place per task, and what is known of the
 task. `Valid` ties them to the lists, the node index and the victim sets that the
 methods update in place.
*/
module BindingUnit {

  import opened BinderTypes
  import opened TaskIndex
  import opened Placements
  import opened UnitLists

  /** The unit has failed: too few tasks are left to reach the minimum it still needs. */
  ghost predicate Hopeless(unit: BindingUnitInfo, p: Placement) {
    if unit.isPodGroup then !unit.everScheduled && |Live(p)| < unit.minMember else At(p, Failed) != {}
  }

  class BindingUnitInfo {
    const isPodGroup: bool
    const minMember: int
    const allMember: nat
    const everScheduled: bool

    /** Tasks assumed in an earlier attempt, with the node of the reserved pod. */
    var assumedTasks: map<Uid, NodeName>
    var newTasks: TaskSetGroupByNode
    var ignoredTasks: seq<Uid>
    var allVictims: set<Uid>
    var readyTasks: map<Uid, CheckResult>
    var waitingTasks: map<Uid, CheckResult>
    var failedTasks: map<Uid, CheckResult>

    ghost var place: Placement
    ghost var info: Infos

    ghost function AllLists(): Lists
      reads this
    {
      Lists(assumedTasks, ignoredTasks, readyTasks, waitingTasks, failedTasks)
    }

    ghost predicate Valid()
      reads this
    {
      Consistent(AllLists(), newTasks, allVictims, place, info)
    }

    /** Every pod of the unit has been given a place. */
    ghost predicate Complete()
      reads this
    {
      |place| == allMember
    }

    constructor (isPodGroup: bool, minMember: int, allMember: nat, everScheduled: bool)
      ensures Valid() && place == map[] && info == map[]
      ensures this.isPodGroup == isPodGroup && this.minMember == minMember
      ensures this.allMember == allMember && this.everScheduled == everScheduled
    {
      this.isPodGroup, this.minMember := isPodGroup, minMember;
      this.allMember, this.everScheduled := allMember, everScheduled;
      assumedTasks, newTasks, ignoredTasks, allVictims := map[], Empty, [], {};
      readyTasks, waitingTasks, failedTasks := map[], map[], map[];
      place, info := map[], map[];
      new;
      EmptyIndexes();
      assert Fresh(place, info) == map[];
    }

    /** What `IsUnitFailed` means. */
    ghost predicate Doomed()
      reads this
    {
      Hopeless(this, place)
    }

    lemma DoomedIs()
      ensures Doomed() <==> Hopeless(this, place)
    {
    }

    method IsUnitFailed() returns (failed: bool)
      requires Valid() && Complete()
      ensures failed <==> Doomed()
    {
      hide Indexes, At, Live;
      LiveCount(place);
      assert |failedTasks| == |failedTasks.Keys|;
      if isPodGroup {
        failed := !everScheduled && allMember - |failedTasks| - |ignoredTasks| < minMember;
      } else {
        failed := |failedTasks| > 0;
      }
    }

    method IsAbleToBindReadyTasks() returns (able: bool)
      requires Valid()
      ensures able <==> !isPodGroup || everScheduled || |At(place, Ready)| >= minMember
    {
      hide Indexes, At;
      assert |readyTasks| == |readyTasks.Keys|;
      able := !isPodGroup || everScheduled || |readyTasks| >= minMember;
    }

    method AddAssumedTask(u: Uid, reservedNode: NodeName)
      requires Valid() && u !in place
      modifies this
      ensures Valid()
      ensures place == old(place)[u := Assumed]
      ensures info == old(info)[u := CheckResult(true, Task(u, reservedNode, {}))]
      ensures allVictims == old(allVictims)
    {
      hide Consistent;
      ghost var r := CheckResult(true, Task(u, reservedNode, {}));
      Arrive(AllLists(), newTasks, allVictims, place, info, u, r, Assumed);
      assumedTasks := assumedTasks[u := reservedNode];
      place, info := place[u := Assumed], info[u := r];
    }

    method AddIgnoredTask(u: Uid)
      requires Valid() && u !in place
      modifies this
      ensures Valid()
      ensures place == old(place)[u := Ignored]
      ensures info == old(info)[u := CheckResult(false, Task(u, "", {}))]
      ensures allVictims == old(allVictims)
    {
      hide Consistent;
      ghost var r := CheckResult(false, Task(u, "", {}));
      Arrive(AllLists(), newTasks, allVictims, place, info, u, r, Ignored);
      ignoredTasks := ignoredTasks + [u];
      place, info := place[u := Ignored], info[u := r];
    }

    method AddNewTask(t: Task)
      requires Valid() && t.uid !in place && t.node != "" && t.victims !! allVictims
      modifies this
      ensures Valid()
      ensures place == old(place)[t.uid := New]
      ensures info == old(info)[t.uid := CheckResult(false, t)]
      ensures allVictims == old(allVictims) + t.victims
    {
      hide Consistent;
      ArriveNew(AllLists(), newTasks, allVictims, place, info, t);
      newTasks := Add(newTasks, t);
      allVictims := allVictims + t.victims;
      place, info := place[t.uid := New], info[t.uid := CheckResult(false, t)];
    }

    method DeleteTaskFromNewOrAssumedTasks(t: Task, assumed: bool)
      modifies this`assumedTasks, this`newTasks, this`allVictims
      ensures assumed ==>
        assumedTasks == old(assumedTasks) - {t.uid} && newTasks == old(newTasks) && allVictims == old(allVictims)
      ensures !assumed ==>
        && assumedTasks == old(assumedTasks)
        && newTasks == Remove(old(newTasks), t)
        && allVictims == if t.node == "" then old(allVictims) else old(allVictims) - t.victims
    {
      if assumed {
        assumedTasks := assumedTasks - {t.uid};
      } else if t.node != "" {
        newTasks := Remove(newTasks, t);
        allVictims := allVictims - t.victims;
      }
    }

    /** Fails a task whose initialisation failed; it never reached the new tasks. */
    method AddFailedArrival(t: Task)
      requires Valid() && t.uid !in place && t.victims == {}
      modifies this
      ensures Valid()
      ensures place == old(place)[t.uid := Failed]
      ensures info == old(info)[t.uid := CheckResult(false, t)]
      ensures allVictims == old(allVictims)
    {
      hide Consistent;
      ArriveFailed(AllLists(), newTasks, allVictims, place, info, t);
      failedTasks := failedTasks[t.uid := CheckResult(false, t)];
      DeleteTaskFromNewOrAssumedTasks(t, false);
      place, info := place[t.uid := Failed], info[t.uid := CheckResult(false, t)];
      assert allVictims == old(allVictims);
    }

    lemma KnownInfo()
      requires Valid()
      ensures InfoAgrees(place, info)
    {
      hide Indexes, Agrees, InfoAgrees;
    }

    /** The lists hold exactly the tasks of their places. */
    lemma ListsAre()
      requires Valid()
      ensures AssumedAgrees(assumedTasks, place, info)
      ensures ListAgrees(readyTasks, place, info, Ready) && ListAgrees(waitingTasks, place, info, Waiting)
      ensures FailedAgrees(failedTasks, place, info) && IgnoredAgrees(ignoredTasks, place)
    {
      hide Indexes, InfoAgrees, AssumedAgrees, ListAgrees, FailedAgrees, IgnoredAgrees;
    }

    lemma KeysAre()
      requires Valid()
      ensures readyTasks.Keys == At(place, Ready) && waitingTasks.Keys == At(place, Waiting)
      ensures failedTasks.Keys == At(place, Failed)
    {
      hide Consistent;
      ListsAre();
    }

    /** Fails one task that is still among the new or the assumed tasks. */
    method AddFailedTask(t: Task, assumed: bool)
      requires Valid() && t.uid in place && t.uid in info
      requires place[t.uid] == if assumed then Assumed else New
      requires if assumed then info[t.uid].assumed && t.victims == {} else t == info[t.uid].task && !info[t.uid].assumed
      modifies this
      ensures Valid() && info == old(info)
      ensures place == Relocate(old(place), {t.uid}, Failed)
    {
      hide Consistent;
      KnownInfo();
      if assumed {
        Shift(AllLists(), newTasks, allVictims, place, info, t.uid, CheckResult(true, t), Failed);
      } else {
        ShiftNew(AllLists(), newTasks, allVictims, place, info, t.uid, Failed);
      }
      failedTasks := failedTasks[t.uid := CheckResult(assumed, t)];
      DeleteTaskFromNewOrAssumedTasks(t, assumed);
      place := place[t.uid := Failed];
    }

    /** The bucket of a node holds exactly the new tasks placed on it. */
    lemma BucketIs(n: NodeName)
      requires Valid()
      ensures Bucket(newTasks, n).Keys == AtNode(place, info, New, n)
      ensures forall u :: u in Bucket(newTasks, n) ==>
        u in info && Bucket(newTasks, n)[u] == info[u].task && !info[u].assumed
      ensures VictimsAt(newTasks, n) == VictimsOn(Fresh(place, info), n)
    {
      hide Agrees;
      assert Bucket(newTasks, n) == OnNode(Fresh(place, info), n);
    }

    method MoveAllNewTasksOnNodeToFailedList(n: NodeName)
      requires Valid()
      modifies this
      ensures Valid() && info == old(info)
      ensures place == Relocate(old(place), AtNode(old(place), info, New, n), Failed)
    {
      hide Consistent, Relocate;
      BucketIs(n);
      var bucket := Bucket(newTasks, n);
      var todo := bucket.Keys;
      RelocateNone(place, bucket.Keys, Failed);
      while todo != {}
        invariant Valid() && info == old(info)
        invariant todo <= bucket.Keys
        invariant place == Relocate(old(place), bucket.Keys - todo, Failed)
      {
        var u :| u in todo;
        RelocateOne(old(place), bucket.Keys, todo, u, Failed);
        assert place[u] == New;
        ShiftNew(AllLists(), newTasks, allVictims, place, info, u, Failed);
        failedTasks := failedTasks[u := CheckResult(false, bucket[u])];
        DeleteTaskFromNewOrAssumedTasks(bucket[u], false);
        place := place[u := Failed];
        todo := todo - {u};
      }
      assert bucket.Keys - todo == bucket.Keys;
    }

    method MoveAllNewTasksOnNodeToWaitingList(n: NodeName)
      requires Valid()
      modifies this
      ensures Valid() && info == old(info)
      ensures place == Relocate(old(place), AtNode(old(place), info, New, n), Waiting)
    {
      hide Consistent, Relocate;
      BucketIs(n);
      var bucket := Bucket(newTasks, n);
      var todo := bucket.Keys;
      RelocateNone(place, bucket.Keys, Waiting);
      while todo != {}
        invariant Valid() && info == old(info)
        invariant todo <= bucket.Keys
        invariant place == Relocate(old(place), bucket.Keys - todo, Waiting)
      {
        var u :| u in todo;
        RelocateOne(old(place), bucket.Keys, todo, u, Waiting);
        assert place[u] == New;
        ShiftNew(AllLists(), newTasks, allVictims, place, info, u, Waiting);
        waitingTasks := waitingTasks[u := CheckResult(false, bucket[u])];
        DeleteTaskFromNewOrAssumedTasks(bucket[u], false);
        place := place[u := Waiting];
        todo := todo - {u};
      }
      assert bucket.Keys - todo == bucket.Keys;
    }

    method MoveAllNewTasksOnNodeToReadyList(n: NodeName)
      requires Valid()
      modifies this
      ensures Valid() && info == old(info)
      ensures place == Relocate(old(place), AtNode(old(place), info, New, n), Ready)
    {
      hide Consistent, Relocate;
      BucketIs(n);
      var bucket := Bucket(newTasks, n);
      var todo := bucket.Keys;
      RelocateNone(place, bucket.Keys, Ready);
      while todo != {}
        invariant Valid() && info == old(info)
        invariant todo <= bucket.Keys
        invariant place == Relocate(old(place), bucket.Keys - todo, Ready)
      {
        var u :| u in todo;
        RelocateOne(old(place), bucket.Keys, todo, u, Ready);
        assert place[u] == New;
        ShiftNew(AllLists(), newTasks, allVictims, place, info, u, Ready);
        readyTasks := readyTasks[u := CheckResult(false, bucket[u])];
        DeleteTaskFromNewOrAssumedTasks(bucket[u], false);
        place := place[u := Ready];
        todo := todo - {u};
      }
      assert bucket.Keys - todo == bucket.Keys;
    }

    /** Assumed tasks are known by their reserved node alone. */
    lemma AssumedAre()
      requires Valid()
      ensures assumedTasks.Keys == At(place, Assumed)
      ensures forall u :: u in assumedTasks ==>
        u in info && info[u] == CheckResult(true, Task(u, assumedTasks[u], {}))
    {
      hide Consistent;
      ListsAre();
      KnownInfo();
    }

    method MoveAllAssumedTasksToReadyList()
      requires Valid()
      modifies this
      ensures Valid() && info == old(info)
      ensures place == Relocate(old(place), At(old(place), Assumed), Ready)
    {
      hide Consistent, Relocate;
      AssumedAre();
      var todo, entries := assumedTasks.Keys, assumedTasks;
      RelocateNone(place, entries.Keys, Ready);
      while todo != {}
        invariant Valid() && info == old(info)
        invariant todo <= entries.Keys
        invariant place == Relocate(old(place), entries.Keys - todo, Ready)
      {
        var u :| u in todo;
        RelocateOne(old(place), entries.Keys, todo, u, Ready);
        assert place[u] == Assumed;
        var r := CheckResult(true, Task(u, entries[u], {}));
        Shift(AllLists(), newTasks, allVictims, place, info, u, r, Ready);
        readyTasks := readyTasks[u := r];
        DeleteTaskFromNewOrAssumedTasks(Task(u, "", {}), true);
        place := place[u := Ready];
        todo := todo - {u};
      }
      assert entries.Keys - todo == entries.Keys;
    }

    method MoveAllAssumedTasksToWaitingList()
      requires Valid()
      modifies this
      ensures Valid() && info == old(info)
      ensures place == Relocate(old(place), At(old(place), Assumed), Waiting)
    {
      hide Consistent, Relocate;
      AssumedAre();
      var todo, entries := assumedTasks.Keys, assumedTasks;
      RelocateNone(place, entries.Keys, Waiting);
      while todo != {}
        invariant Valid() && info == old(info)
        invariant todo <= entries.Keys
        invariant place == Relocate(old(place), entries.Keys - todo, Waiting)
      {
        var u :| u in todo;
        RelocateOne(old(place), entries.Keys, todo, u, Waiting);
        assert place[u] == Assumed;
        var r := CheckResult(true, Task(u, entries[u], {}));
        Shift(AllLists(), newTasks, allVictims, place, info, u, r, Waiting);
        waitingTasks := waitingTasks[u := r];
        DeleteTaskFromNewOrAssumedTasks(Task(u, "", {}), true);
        place := place[u := Waiting];
        todo := todo - {u};
      }
      assert entries.Keys - todo == entries.Keys;
    }

    method MoveAllTasksFromReadyToWaitingList()
      requires Valid()
      modifies this
      ensures Valid() && info == old(info)
      ensures place == Relocate(old(place), At(old(place), Ready), Waiting)
    {
      hide Consistent, Relocate;
      ListsAre();
      var todo, entries := readyTasks.Keys, readyTasks;
      RelocateNone(place, entries.Keys, Waiting);
      while todo != {}
        invariant Valid() && info == old(info)
        invariant todo <= entries.Keys
        invariant place == Relocate(old(place), entries.Keys - todo, Waiting)
      {
        var u :| u in todo;
        RelocateOne(old(place), entries.Keys, todo, u, Waiting);
        assert place[u] == Ready;
        Shift(AllLists(), newTasks, allVictims, place, info, u, entries[u], Waiting);
        waitingTasks := waitingTasks[u := entries[u]];
        readyTasks := readyTasks - {u};
        place := place[u := Waiting];
        todo := todo - {u};
      }
      assert entries.Keys - todo == entries.Keys;
    }

    /** Moves the tasks `chosen` of the ready list to the failed list. */
    method FailReady(chosen: set<Uid>)
      requires Valid() && chosen <= readyTasks.Keys
      modifies this
      ensures Valid() && info == old(info)
      ensures place == Relocate(old(place), chosen, Failed)
      ensures waitingTasks == old(waitingTasks)
    {
      hide Consistent, Relocate;
      ListsAre();
      var todo, entries := chosen, readyTasks;
      RelocateNone(place, chosen, Failed);
      while todo != {}
        invariant Valid() && info == old(info) && waitingTasks == old(waitingTasks)
        invariant todo <= chosen
        invariant place == Relocate(old(place), chosen - todo, Failed)
      {
        var u :| u in todo;
        RelocateOne(old(place), chosen, todo, u, Failed);
        assert place[u] == Ready;
        Shift(AllLists(), newTasks, allVictims, place, info, u, entries[u], Failed);
        failedTasks := failedTasks[u := entries[u]];
        readyTasks := readyTasks - {u};
        place := place[u := Failed];
        todo := todo - {u};
      }
      assert chosen - todo == chosen;
    }

    /** Moves the tasks `chosen` of the waiting list to the failed list. */
    method FailWaiting(chosen: set<Uid>)
      requires Valid() && chosen <= waitingTasks.Keys
      modifies this
      ensures Valid() && info == old(info)
      ensures place == Relocate(old(place), chosen, Failed)
      ensures readyTasks == old(readyTasks)
    {
      hide Consistent, Relocate;
      ListsAre();
      var todo, entries := chosen, waitingTasks;
      RelocateNone(place, chosen, Failed);
      while todo != {}
        invariant Valid() && info == old(info) && readyTasks == old(readyTasks)
        invariant todo <= chosen
        invariant place == Relocate(old(place), chosen - todo, Failed)
      {
        var u :| u in todo;
        RelocateOne(old(place), chosen, todo, u, Failed);
        assert place[u] == Waiting;
        Shift(AllLists(), newTasks, allVictims, place, info, u, entries[u], Failed);
        failedTasks := failedTasks[u := entries[u]];
        waitingTasks := waitingTasks - {u};
        place := place[u := Failed];
        todo := todo - {u};
      }
      assert chosen - todo == chosen;
    }

    method MoveTasksFromReadyToFailedList(failed: set<Uid>)
      requires Valid() && failed <= At(place, Ready)
      modifies this
      ensures Valid() && info == old(info)
      ensures place == Relocate(old(place), failed, Failed)
    {
      hide Consistent;
      ListsAre();
      FailReady(failed);
    }

    method MoveAllNewTasksOnNodeFromWaitingToFailedList(n: NodeName)
      requires Valid()
      modifies this
      ensures Valid() && info == old(info)
      ensures place == Relocate(old(place),
        NewcomersAt(old(place), info, Waiting) * AtNode(old(place), info, Waiting, n), Failed)
    {
      hide Consistent;
      ListsAre();
      var chosen := set u | u in waitingTasks && !waitingTasks[u].assumed && waitingTasks[u].task.node == n;
      assert chosen == NewcomersAt(place, info, Waiting) * AtNode(place, info, Waiting, n);
      FailWaiting(chosen);
    }

    method MoveAllNewTasksInReadyAndWaitingListToFailedList()
      requires Valid()
      modifies this
      ensures Valid() && info == old(info)
      ensures place == Relocate(old(place),
        NewcomersAt(old(place), info, Ready) + NewcomersAt(old(place), info, Waiting), Failed)
    {
      hide Consistent;
      ListsAre();
      var ready := set u | u in readyTasks && !readyTasks[u].assumed;
      var waiting := set u | u in waitingTasks && !waitingTasks[u].assumed;
      assert ready == NewcomersAt(place, info, Ready) && waiting == NewcomersAt(place, info, Waiting);
      FailReady(ready);
      FailWaiting(waiting);
    }

    method MoveAllTasksToFailedList()
      requires Valid()
      modifies this
      ensures Valid() && info == old(info)
      ensures place == Relocate(old(place), Live(old(place)), Failed)
    {
      hide Consistent, Relocate, At;
      FailAllAssumed();
      ghost var p1 := place;
      FailAllNew();
      ghost var p2 := place;
      KeysAre();
      FailReady(readyTasks.Keys);
      KeysAre();
      FailWaiting(waitingTasks.Keys);
      FailEach(old(place), p1, p2);
    }

    method FailAllAssumed()
      requires Valid()
      modifies this
      ensures Valid() && info == old(info)
      ensures place == Relocate(old(place), At(old(place), Assumed), Failed)
    {
      hide Consistent, Relocate;
      AssumedAre();
      var todo, entries := assumedTasks.Keys, assumedTasks;
      RelocateNone(place, entries.Keys, Failed);
      while todo != {}
        invariant Valid() && info == old(info)
        invariant todo <= entries.Keys
        invariant place == Relocate(old(place), entries.Keys - todo, Failed)
      {
        var u :| u in todo;
        RelocateOne(old(place), entries.Keys, todo, u, Failed);
        assert place[u] == Assumed;
        var r := CheckResult(true, Task(u, "", {}));
        Shift(AllLists(), newTasks, allVictims, place, info, u, r, Failed);
        failedTasks := failedTasks[u := r];
        DeleteTaskFromNewOrAssumedTasks(Task(u, "", {}), true);
        place := place[u := Failed];
        todo := todo - {u};
      }
      assert entries.Keys - todo == entries.Keys;
    }

    method FailAllNew()
      requires Valid()
      modifies this
      ensures Valid() && info == old(info)
      ensures place == Relocate(old(place), At(old(place), New), Failed)
    {
      hide Consistent;
      KnownInfo();
      BucketsCover();
      var todo := newTasks.tasks.Keys;
      while todo != {}
        invariant Valid() && info == old(info)
        invariant place.Keys == old(place).Keys
        invariant forall u :: u in place ==>
          place[u] == if old(place)[u] == New && info[u].task.node !in todo then Failed else old(place)[u]
      {
        var n :| n in todo;
        MoveAllNewTasksOnNodeToFailedList(n);
        todo := todo - {n};
      }
    }

    /** There are victims if and only if some new task has one. */
    lemma VictimsAre()
      requires Valid()
      ensures allVictims != {} <==> exists u :: u in At(place, New) && u in info && info[u].task.victims != {}
      ensures forall v :: v in allVictims ==> exists u :: u in At(place, New) && u in info && v in info[u].task.victims
    {
      hide ListAgrees, FailedAgrees, AssumedAgrees, IgnoredAgrees;
      var tasks := Fresh(place, info);
      assert allVictims == VictimsOf(tasks);
      assert forall u :: u in tasks <==> u in At(place, New) && u in info;
      if u :| u in At(place, New) && u in info && info[u].task.victims != {} {
        var v :| v in info[u].task.victims;
        assert u in tasks && v in tasks[u].victims;
        assert v in allVictims;
      }
    }

    lemma BucketsCover()
      requires Valid()
      ensures forall u :: u in place && place[u] == New ==> u in info && info[u].task.node in newTasks.tasks
      ensures forall u :: u in place && place[u] == New ==> info[u].task.node in newTasks.nodes
    {
      hide Consistent;
      KnownInfo();
      forall u | u in place && place[u] == New
        ensures info[u].task.node in newTasks.tasks && info[u].task.node in newTasks.nodes
      {
        BucketIs(info[u].task.node);
        assert u in Bucket(newTasks, info[u].task.node);
        NodesCover(u);
      }
    }

    lemma NodesCover(u: Uid)
      requires Valid() && u in place && place[u] == New
      ensures u in info && info[u].task.node in newTasks.nodes && info[u].task.node != ""
    {
      hide Agrees, Indexes;
      NewIsIndexed(newTasks, allVictims, place, info, u);
    }

    /** Whether some new task of the node is a preemptor. */
    method NewTasksOnNodeNeedPreemption(n: NodeName) returns (need: bool)
      requires Valid()
      ensures need <==> exists u :: u in AtNode(place, info, New, n) && info[u].task.victims != {}
    {
      hide Consistent;
      BucketIs(n);
      var bucket := Bucket(newTasks, n);
      var todo := bucket.Keys;
      while todo != {}
        invariant todo <= bucket.Keys
        invariant forall u :: u in bucket.Keys - todo ==> bucket[u].victims == {}
      {
        var u :| u in todo;
        if bucket[u].victims != {} {
          assert u in AtNode(place, info, New, n) && info[u].task.victims != {};
          return true;
        }
        todo := todo - {u};
      }
      return false;
    }

    /** All new tasks, as the union of the buckets. */
    function AllNewUids(): (s: set<Uid>)
      reads this
    {
      set n, u | n in newTasks.tasks && u in newTasks.tasks[n] :: u
    }

    lemma AllNewUidsAre()
      requires Valid()
      ensures AllNewUids() == At(place, New)
    {
      hide Consistent;
      KnownInfo();
      forall u | u in At(place, New)
        ensures u in AllNewUids()
      {
        BucketIs(info[u].task.node);
        assert u in Bucket(newTasks, info[u].task.node);
      }
      forall u | u in AllNewUids()
        ensures u in At(place, New)
      {
        var n :| n in newTasks.tasks && u in newTasks.tasks[n];
        BucketIs(n);
        assert u in Bucket(newTasks, n);
      }
    }

    /**
     Conservation: the six lists of a unit, as they are stored, hold each of its pods once and
     nothing else. Every method of the class keeps what this follows from.
    */
    lemma ListsPartition()
      requires Valid()
      ensures
        var ignored := set u | u in ignoredTasks;
        && place.Keys
           == assumedTasks.Keys + AllNewUids() + readyTasks.Keys + waitingTasks.Keys + failedTasks.Keys + ignored
        && |place|
           == |assumedTasks| + |AllNewUids()| + |readyTasks| + |waitingTasks| + |failedTasks| + |ignoredTasks|
    {
      hide Consistent;
      ListsAre();
      AllNewUidsAre();
      hide ListAgrees, FailedAgrees, AssumedAgrees, IgnoredAgrees;
      ListSizes();
      PlacesAdd(place);
    }

    lemma ListSizes()
      requires AssumedAgrees(assumedTasks, place, info) && IgnoredAgrees(ignoredTasks, place)
      requires ListAgrees(readyTasks, place, info, Ready) && ListAgrees(waitingTasks, place, info, Waiting)
      requires FailedAgrees(failedTasks, place, info)
      ensures assumedTasks.Keys == At(place, Assumed) && |assumedTasks| == |At(place, Assumed)|
      ensures readyTasks.Keys == At(place, Ready) && |readyTasks| == |At(place, Ready)|
      ensures waitingTasks.Keys == At(place, Waiting) && |waitingTasks| == |At(place, Waiting)|
      ensures failedTasks.Keys == At(place, Failed) && |failedTasks| == |At(place, Failed)|
      ensures (set u | u in ignoredTasks) == At(place, Ignored) && |ignoredTasks| == |At(place, Ignored)|
    {
      assert |assumedTasks.Keys| == |assumedTasks| && |readyTasks.Keys| == |readyTasks|;
      assert |waitingTasks.Keys| == |waitingTasks| && |failedTasks.Keys| == |failedTasks|;
    }

    /** Reads a new task back from the node index. */
    method NewTaskOf(u: Uid) returns (t: Task)
      requires Valid() && u in At(place, New)
      ensures u in info && t == info[u].task && t.uid == u && !info[u].assumed
    {
      hide Consistent;
      KnownInfo();
      BucketsCover();
      BucketIs(info[u].task.node);
      assert u in Bucket(newTasks, info[u].task.node);
      var n :| n in newTasks.tasks && u in newTasks.tasks[n];
      BucketIs(n);
      t := Bucket(newTasks, n)[u];
    }
  }
}
