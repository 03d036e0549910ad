/** Where a task of a unit is during one binding attempt. */
module Placements {

  import opened BinderTypes

  datatype Place = Assumed | New | Ready | Waiting | Failed | Ignored

  /** Each task is in exactly one place, so a placement of all pods is conservation. */
  type Placement = map<Uid, Place>

  function At(p: Placement, b: Place): set<Uid> {
    set u | u in p && p[u] == b
  }

  function Relocate(p: Placement, s: set<Uid>, b: Place): Placement {
    map u | u in p :: if u in s then b else p[u]
  }

  /** Moving one more of the tasks that are to move. */
  lemma RelocateOne(p: Placement, all: set<Uid>, todo: set<Uid>, u: Uid, b: Place)
    requires u in todo && u in p && u in all
    ensures u in Relocate(p, all - todo, b) && Relocate(p, all - todo, b)[u] == p[u]
    ensures Relocate(p, all - (todo - {u}), b) == Relocate(p, all - todo, b)[u := b]
  {
  }

  lemma RelocateNone(p: Placement, all: set<Uid>, b: Place)
    ensures Relocate(p, all - all, b) == p
  {
  }

  /** The tasks of a placement that can still be bound in this attempt or a later one. */
  function Live(p: Placement): set<Uid> {
    At(p, Assumed) + At(p, New) + At(p, Ready) + At(p, Waiting)
  }

  /** Failing place after place fails everything that was live. */
  lemma FailEach(p: Placement, p1: Placement, p2: Placement)
    requires p1 == Relocate(p, At(p, Assumed), Failed) && p2 == Relocate(p1, At(p1, New), Failed)
    ensures
      var p3 := Relocate(p2, At(p2, Ready), Failed);
      Relocate(p3, At(p3, Waiting), Failed) == Relocate(p, Live(p), Failed)
  {
  }

  lemma PartsCover(p: Placement)
    ensures p.Keys == At(p, Failed) + At(p, Ignored) + Live(p)
    ensures At(p, Failed) !! At(p, Ignored) && (At(p, Failed) + At(p, Ignored)) !! Live(p)
  {
    forall u | u in p
      ensures u in At(p, Failed) + At(p, Ignored) + Live(p)
    {
      assert p[u].Assumed? || p[u].New? || p[u].Ready? || p[u].Waiting? || p[u].Failed? || p[u].Ignored?;
    }
  }

  /** The places of a placement are disjoint and cover it, in number too. */
  lemma PlacesAdd(p: Placement)
    ensures p.Keys == At(p, Assumed) + At(p, New) + At(p, Ready) + At(p, Waiting) + At(p, Failed) + At(p, Ignored)
    ensures |p| ==
      |At(p, Assumed)| + |At(p, New)| + |At(p, Ready)| + |At(p, Waiting)| + |At(p, Failed)| + |At(p, Ignored)|
  {
    var a := At(p, Assumed);
    var b := a + At(p, New);
    var c := b + At(p, Ready);
    var d := c + At(p, Waiting);
    var e := d + At(p, Failed);
    assert p.Keys == e + At(p, Ignored) && |p.Keys| == |p|;
    assert a !! At(p, New) && b !! At(p, Ready) && c !! At(p, Waiting) && d !! At(p, Failed) && e !! At(p, Ignored);
  }

  /** Tasks that neither failed nor were ignored are exactly the live ones, counted once. */
  lemma LiveCount(p: Placement)
    ensures |p| - |At(p, Failed)| - |At(p, Ignored)| == |Live(p)|
  {
    hide At, Live;
    PartsCover(p);
    assert |p.Keys| == |At(p, Failed)| + |At(p, Ignored)| + |Live(p)|;
  }
}

/** The lists of a unit and their agreement with a placement of its tasks. */
module UnitLists {

  import opened BinderTypes
  import opened TaskIndex
  import opened Placements

  type Infos = map<Uid, CheckResult>

  datatype Lists = Lists(
    assumed: map<Uid, NodeName>,
    ignored: seq<Uid>,
    ready: Infos,
    waiting: Infos,
    failed: Infos)

  /** Adds a task to the list of a place; the new tasks are kept in the node index instead. */
  function Put(ls: Lists, u: Uid, r: CheckResult, b: Place): Lists {
    match b
    case Assumed => ls.(assumed := ls.assumed[u := r.task.node])
    case New => ls
    case Ready => ls.(ready := ls.ready[u := r])
    case Waiting => ls.(waiting := ls.waiting[u := r])
    case Failed => ls.(failed := ls.failed[u := r])
    case Ignored => ls.(ignored := ls.ignored + [u])
  }

  /** Takes a task off the list of a place. Nothing ever leaves the failed and ignored lists. */
  function Drop(ls: Lists, u: Uid, b: Place): Lists {
    match b
    case Assumed => ls.(assumed := ls.assumed - {u})
    case Ready => ls.(ready := ls.ready - {u})
    case Waiting => ls.(waiting := ls.waiting - {u})
    case _ => ls
  }

  /** The new tasks of a placement, as a plain map. */
  ghost function Fresh(p: Placement, info: Infos): map<Uid, Task> {
    map u | u in p && u in info && p[u] == New :: info[u].task
  }

  /** Tasks of a place, restricted to one node. */
  ghost function AtNode(p: Placement, info: Infos, b: Place, n: NodeName): set<Uid> {
    set u | u in p && u in info && p[u] == b && info[u].task.node == n
  }

  /** Tasks of a place that are new to this attempt. */
  ghost function NewcomersAt(p: Placement, info: Infos, b: Place): set<Uid> {
    set u | u in p && u in info && p[u] == b && !info[u].assumed
  }

  ghost predicate ListAgrees(list: Infos, p: Placement, info: Infos, b: Place) {
    && list.Keys == At(p, b)
    && (forall u :: u in list ==> u in info && list[u] == info[u])
  }

  /** Failed entries of assumed tasks may lack the node, and never carry victims. */
  ghost predicate FailureOf(r: CheckResult, i: CheckResult) {
    && r.assumed == i.assumed
    && r.task.uid == i.task.uid
    && r.task.victims == i.task.victims
    && (!i.assumed ==> r == i)
  }

  ghost predicate FailedAgrees(list: Infos, p: Placement, info: Infos) {
    && list.Keys == At(p, Failed)
    && (forall u :: u in list ==> u in info && FailureOf(list[u], info[u]))
  }

  ghost predicate AssumedAgrees(list: map<Uid, NodeName>, p: Placement, info: Infos) {
    && list.Keys == At(p, Assumed)
    && (forall u :: u in list ==> u in info && info[u].assumed && info[u].task.node == list[u])
  }

  ghost predicate IgnoredAgrees(list: seq<Uid>, p: Placement) {
    && (forall u :: u in list <==> u in At(p, Ignored))
    && |list| == |At(p, Ignored)|
  }

  ghost predicate InfoAgrees(p: Placement, info: Infos) {
    && p.Keys == info.Keys
    && (forall u :: u in p ==> info[u].task.uid == u && (info[u].assumed ==> info[u].task.victims == {}))
    && (forall u :: u in p && p[u] == New ==> !info[u].assumed)
  }

  ghost predicate Agrees(ls: Lists, p: Placement, info: Infos) {
    && AssumedAgrees(ls.assumed, p, info)
    && ListAgrees(ls.ready, p, info, Ready)
    && ListAgrees(ls.waiting, p, info, Waiting)
    && FailedAgrees(ls.failed, p, info)
    && IgnoredAgrees(ls.ignored, p)
  }

  /** All the data of a unit describe one placement of its tasks. */
  ghost predicate Consistent(ls: Lists, ix: TaskSetGroupByNode, victims: set<Uid>, p: Placement, info: Infos) {
    && InfoAgrees(p, info)
    && Agrees(ls, p, info)
    && Indexes(ix, victims, Fresh(p, info))
  }

  /** The entry a list of place `b` needs for a task known as `i`. */
  ghost predicate EntryFor(r: CheckResult, i: CheckResult, b: Place) {
    match b
    case Failed => FailureOf(r, i)
    case Assumed => i.assumed && r.task.node == i.task.node
    case _ => r == i
  }

  lemma AtPut(p: Placement, u: Uid, b: Place, c: Place)
    requires u !in p
    ensures At(p[u := b], c) == if c == b then At(p, c) + {u} else At(p, c)
    ensures u !in At(p, c)
  {
  }

  lemma AtDrop(p: Placement, u: Uid, c: Place)
    ensures At(p - {u}, c) == At(p, c) - {u}
    ensures u in At(p, c) <==> u in p && p[u] == c
  {
  }

  lemma PutList(list: Infos, p: Placement, info: Infos, u: Uid, i: CheckResult, b: Place, c: Place)
    requires ListAgrees(list, p, info, c) && u !in p
    ensures ListAgrees(if b == c then list[u := i] else list, p[u := b], info[u := i], c)
  {
    hide At;
    AtPut(p, u, b, c);
  }

  lemma PutAssumed(list: map<Uid, NodeName>, p: Placement, info: Infos, u: Uid, i: CheckResult, b: Place)
    requires AssumedAgrees(list, p, info) && u !in p && (b == Assumed ==> i.assumed)
    ensures AssumedAgrees(if b == Assumed then list[u := i.task.node] else list, p[u := b], info[u := i])
  {
    hide At;
    AtPut(p, u, b, Assumed);
  }

  lemma PutFailed(list: Infos, p: Placement, info: Infos, u: Uid, r: CheckResult, i: CheckResult, b: Place)
    requires FailedAgrees(list, p, info) && u !in p && (b == Failed ==> FailureOf(r, i))
    ensures FailedAgrees(if b == Failed then list[u := r] else list, p[u := b], info[u := i])
  {
    hide At, FailureOf;
    AtPut(p, u, b, Failed);
  }

  lemma PutIgnored(list: seq<Uid>, p: Placement, u: Uid, b: Place)
    requires IgnoredAgrees(list, p) && u !in p
    ensures IgnoredAgrees(if b == Ignored then list + [u] else list, p[u := b])
  {
    hide At;
    AtPut(p, u, b, Ignored);
  }

  lemma PutAgrees(ls: Lists, p: Placement, info: Infos, u: Uid, r: CheckResult, i: CheckResult, b: Place)
    requires Agrees(ls, p, info) && u !in p && EntryFor(r, i, b)
    ensures Agrees(Put(ls, u, r, b), p[u := b], info[u := i])
  {
    hide ListAgrees, AssumedAgrees, FailedAgrees, IgnoredAgrees, FailureOf;
    PutList(ls.ready, p, info, u, i, b, Ready);
    PutList(ls.waiting, p, info, u, i, b, Waiting);
    PutAssumed(ls.assumed, p, info, u, i, b);
    PutFailed(ls.failed, p, info, u, r, i, b);
    PutIgnored(ls.ignored, p, u, b);
  }

  lemma DropList(list: Infos, p: Placement, info: Infos, u: Uid, c: Place)
    requires ListAgrees(list, p, info, c) && u in p
    ensures ListAgrees(if p[u] == c then list - {u} else list, p - {u}, info, c)
  {
    hide At;
    AtDrop(p, u, c);
  }

  lemma DropAssumed(list: map<Uid, NodeName>, p: Placement, info: Infos, u: Uid)
    requires AssumedAgrees(list, p, info) && u in p
    ensures AssumedAgrees(if p[u] == Assumed then list - {u} else list, p - {u}, info)
  {
    hide At;
    AtDrop(p, u, Assumed);
  }

  lemma DropOthers(failed: Infos, ignored: seq<Uid>, p: Placement, info: Infos, u: Uid)
    requires FailedAgrees(failed, p, info) && IgnoredAgrees(ignored, p)
    requires u in p && p[u] != Failed && p[u] != Ignored
    ensures FailedAgrees(failed, p - {u}, info) && IgnoredAgrees(ignored, p - {u})
  {
    hide At, FailureOf;
    AtDrop(p, u, Failed);
    AtDrop(p, u, Ignored);
    assert At(p - {u}, Failed) == At(p, Failed) && At(p - {u}, Ignored) == At(p, Ignored);
  }

  lemma DropAgrees(ls: Lists, p: Placement, info: Infos, u: Uid)
    requires Agrees(ls, p, info) && u in p && p[u] != Failed && p[u] != Ignored
    ensures Agrees(Drop(ls, u, p[u]), p - {u}, info)
  {
    hide ListAgrees, AssumedAgrees, FailedAgrees, IgnoredAgrees;
    DropList(ls.ready, p, info, u, Ready);
    DropList(ls.waiting, p, info, u, Waiting);
    DropAssumed(ls.assumed, p, info, u);
    DropOthers(ls.failed, ls.ignored, p, info, u);
  }

  /** A task arrives outside the new tasks. */
  lemma Arrive(
    ls: Lists, ix: TaskSetGroupByNode, victims: set<Uid>, p: Placement, info: Infos,
    u: Uid, r: CheckResult, b: Place)
    requires Consistent(ls, ix, victims, p, info)
    requires u !in p && r.task.uid == u && r.task.victims == {} && b != New
    requires EntryFor(r, r, b)
    ensures Consistent(Put(ls, u, r, b), ix, victims, p[u := b], info[u := r])
  {
    hide Indexes, Agrees, EntryFor;
    PutAgrees(ls, p, info, u, r, r, b);
    assert Fresh(p[u := b], info[u := r]) == Fresh(p, info);
  }

  /** A task arrives among the new tasks, and enters the node index. */
  lemma ArriveNew(ls: Lists, ix: TaskSetGroupByNode, victims: set<Uid>, p: Placement, info: Infos, t: Task)
    requires Consistent(ls, ix, victims, p, info)
    requires t.uid !in p && t.node != "" && t.victims !! victims
    ensures Consistent(ls, Add(ix, t), victims + t.victims, p[t.uid := New], info[t.uid := CheckResult(false, t)])
  {
    hide Indexes, Agrees;
    AddKeepsIndex(ix, victims, Fresh(p, info), t);
    PutAgrees(ls, p, info, t.uid, CheckResult(false, t), CheckResult(false, t), New);
    assert Fresh(p[t.uid := New], info[t.uid := CheckResult(false, t)]) == Fresh(p, info)[t.uid := t];
  }

  /** A task moves between two lists. */
  lemma Shift(
    ls: Lists, ix: TaskSetGroupByNode, victims: set<Uid>, p: Placement, info: Infos,
    u: Uid, r: CheckResult, b: Place)
    requires Consistent(ls, ix, victims, p, info)
    requires u in p && p[u] != New && p[u] != Failed && p[u] != Ignored && b != New
    requires EntryFor(r, info[u], b)
    ensures Consistent(Put(Drop(ls, u, p[u]), u, r, b), ix, victims, p[u := b], info)
  {
    hide Indexes, Agrees, EntryFor;
    DropAgrees(ls, p, info, u);
    PutAgrees(Drop(ls, u, p[u]), p - {u}, info, u, r, info[u], b);
    assert (p - {u})[u := b] == p[u := b];
    assert info[u := info[u]] == info;
    assert Fresh(p[u := b], info) == Fresh(p, info);
  }

  lemma NewIsIndexed(ix: TaskSetGroupByNode, victims: set<Uid>, p: Placement, info: Infos, u: Uid)
    requires Indexes(ix, victims, Fresh(p, info)) && InfoAgrees(p, info)
    requires u in p && p[u] == New
    ensures u in Fresh(p, info) && Fresh(p, info)[u] == info[u].task
    ensures info[u].task.node != "" && info[u].task.uid == u && info[u].task.node in ix.nodes
  {
    assert u in Fresh(p, info);
  }

  /** A task leaves the new tasks: it leaves the node index together with its victims. */
  lemma ShiftNew(
    ls: Lists, ix: TaskSetGroupByNode, victims: set<Uid>, p: Placement, info: Infos, u: Uid, b: Place)
    requires Consistent(ls, ix, victims, p, info)
    requires u in p && p[u] == New && (b == Ready || b == Waiting || b == Failed)
    ensures Consistent(
      Put(ls, u, info[u], b), Remove(ix, info[u].task), victims - info[u].task.victims, p[u := b], info)
    ensures info[u].task.node != ""
  {
    hide Agrees, Indexes;
    NewIsIndexed(ix, victims, p, info, u);
    RemoveKeepsIndex(ix, victims, Fresh(p, info), u);
    DropAgrees(ls, p, info, u);
    PutAgrees(ls, p - {u}, info, u, info[u], info[u], b);
    assert (p - {u})[u := b] == p[u := b];
    assert info[u := info[u]] == info;
    assert Fresh(p[u := b], info) == Fresh(p, info) - {u};
  }

  /** A task whose initialisation failed is taken off an index it never entered. */
  lemma ArriveFailed(ls: Lists, ix: TaskSetGroupByNode, victims: set<Uid>, p: Placement, info: Infos, t: Task)
    requires Consistent(ls, ix, victims, p, info)
    requires t.uid !in p && t.victims == {}
    ensures Consistent(
      Put(ls, t.uid, CheckResult(false, t), Failed), Remove(ix, t), victims,
      p[t.uid := Failed], info[t.uid := CheckResult(false, t)])
  {
    hide Indexes, Agrees;
    RemoveAbsentKeepsIndex(ix, victims, Fresh(p, info), t);
    Arrive(ls, ix, victims, p, info, t.uid, CheckResult(false, t), Failed);
    assert Fresh(p[t.uid := Failed], info[t.uid := CheckResult(false, t)]) == Fresh(p, info);
  }
}
