/** Identifiers and records shared by the model of the binder. */
module BinderTypes {

  type Uid = nat
  type NodeName = string

  datatype Option<+T> = None | Some(value: T)

  /** A running unit: one task with its suggested node and the pods it preempts. */
  datatype Task = Task(uid: Uid, node: NodeName, victims: set<Uid>)

  /** An entry of the ready, waiting or failed list. */
  datatype CheckResult = CheckResult(assumed: bool, task: Task)
}

/**
 The node-grouped index of the new tasks of a unit, with the victims of those tasks
 kept per node and for the whole unit.

 The index is proved to agree with the plain map of new tasks it was built from.
*/
module TaskIndex {

  import opened BinderTypes

  datatype TaskSetGroupByNode = TaskSetGroupByNode(
    nodes: set<NodeName>,
    tasks: map<NodeName, map<Uid, Task>>,
    victimsGroupByNode: map<NodeName, set<Uid>>)

  const Empty := TaskSetGroupByNode({}, map[], map[])

  /** The tasks of one node; a missing node reads as no tasks. */
  function Bucket(ix: TaskSetGroupByNode, n: NodeName): map<Uid, Task> {
    if n in ix.tasks then ix.tasks[n] else map[]
  }

  /** The victims of one node; a missing node reads as no victims. */
  function VictimsAt(ix: TaskSetGroupByNode, n: NodeName): set<Uid> {
    if n in ix.victimsGroupByNode then ix.victimsGroupByNode[n] else {}
  }

  /** Adds a task under its suggested node. */
  function Add(ix: TaskSetGroupByNode, t: Task): TaskSetGroupByNode {
    TaskSetGroupByNode(
      ix.nodes + {t.node},
      ix.tasks[t.node := Bucket(ix, t.node)[t.uid := t]],
      if t.victims == {} then ix.victimsGroupByNode
      else ix.victimsGroupByNode[t.node := VictimsAt(ix, t.node) + t.victims])
  }

  /**
   Removes a task and its victims. A node leaves `nodes` only when it has no task left
   and no node ever had a victim entry; entries of the two maps are never dropped.
  */
  function Remove(ix: TaskSetGroupByNode, t: Task): TaskSetGroupByNode {
    if t.node == "" then ix else
      var tasks := if t.node in ix.tasks then ix.tasks[t.node := ix.tasks[t.node] - {t.uid}] else ix.tasks;
      var victims :=
        if t.node in ix.victimsGroupByNode
        then ix.victimsGroupByNode[t.node := ix.victimsGroupByNode[t.node] - t.victims]
        else ix.victimsGroupByNode;
      var nodes :=
        if (t.node !in tasks || tasks[t.node] == map[]) && victims == map[]
        then ix.nodes - {t.node}
        else ix.nodes;
      TaskSetGroupByNode(nodes, tasks, victims)
  }

  // The reference: the same questions asked of the plain map of new tasks.

  function UidsOn(m: map<Uid, Task>, n: NodeName): set<Uid> {
    set u | u in m && m[u].node == n
  }

  function OnNode(m: map<Uid, Task>, n: NodeName): map<Uid, Task> {
    map u | u in m && m[u].node == n :: m[u]
  }

  function VictimsOn(m: map<Uid, Task>, n: NodeName): set<Uid> {
    set u, v | u in m && m[u].node == n && v in m[u].victims :: v
  }

  function VictimsOf(m: map<Uid, Task>): set<Uid> {
    set u, v | u in m && v in m[u].victims :: v
  }

  ghost predicate DisjointVictims(m: map<Uid, Task>) {
    forall u, w :: u in m && w in m && u != w ==> m[u].victims !! m[w].victims
  }

  /** The index, with the unit-wide victim set, describes exactly the new tasks `m`. */
  ghost predicate Indexes(ix: TaskSetGroupByNode, allVictims: set<Uid>, m: map<Uid, Task>) {
    && (forall n :: Bucket(ix, n) == OnNode(m, n))
    && (forall n :: VictimsAt(ix, n) == VictimsOn(m, n))
    && allVictims == VictimsOf(m)
    && DisjointVictims(m)
    && (forall u :: u in m ==> m[u].uid == u && m[u].node != "" && m[u].node in ix.nodes)
  }

  lemma EmptyIndexes()
    ensures Indexes(Empty, {}, map[])
  {
    assert forall n :: OnNode(map[], n) == map[] && VictimsOn(map[], n) == {};
  }

  lemma AddAtNode(ix: TaskSetGroupByNode, m: map<Uid, Task>, t: Task, n: NodeName)
    requires Bucket(ix, n) == OnNode(m, n) && VictimsAt(ix, n) == VictimsOn(m, n)
    requires t.uid !in m
    ensures Bucket(Add(ix, t), n) == OnNode(m[t.uid := t], n)
    ensures VictimsAt(Add(ix, t), n) == VictimsOn(m[t.uid := t], n)
  {
    GrowVictimsOn(m, t, n);
    assert n == t.node ==> OnNode(m[t.uid := t], n) == OnNode(m, n)[t.uid := t];
    assert n != t.node ==> OnNode(m[t.uid := t], n) == OnNode(m, n);
  }

  lemma AddKeepsDisjoint(m: map<Uid, Task>, t: Task)
    requires DisjointVictims(m) && t.uid !in m && t.victims !! VictimsOf(m)
    ensures DisjointVictims(m[t.uid := t])
  {
    var m' := m[t.uid := t];
    forall u | u in m
      ensures m[u].victims !! t.victims
    {
      assert m[u].victims <= VictimsOf(m);
    }
  }

  /** The nodes of the new tasks. */
  ghost function NodesOf(m: map<Uid, Task>): set<NodeName> {
    set u | u in m :: m[u].node
  }

  /** While no task has a victim, the index lists exactly the nodes with a task, whatever is added or removed. */
  ghost predicate NoVictims(ix: TaskSetGroupByNode, m: map<Uid, Task>) {
    ix.victimsGroupByNode == map[] && ix.nodes == NodesOf(m)
  }

  lemma AddKeepsNodes(ix: TaskSetGroupByNode, m: map<Uid, Task>, t: Task)
    requires NoVictims(ix, m) && t.uid !in m && t.victims == {}
    ensures NoVictims(Add(ix, t), m[t.uid := t])
  {
    var m' := m[t.uid := t];
    forall n | n in NodesOf(m) + {t.node}
      ensures n in NodesOf(m')
    {
      if n == t.node {
        assert m'[t.uid].node == n;
      } else {
        var u :| u in m && m[u].node == n;
        assert m'[u].node == n;
      }
    }
  }

  /** With a victim anywhere in the unit, a node stays listed after its last task has gone. */
  lemma RemoveDropsNode(ix: TaskSetGroupByNode, allVictims: set<Uid>, m: map<Uid, Task>, u: Uid)
    requires Indexes(ix, allVictims, m) && u in m
    ensures m[u].node !in Remove(ix, m[u]).nodes <==> m[u].node !in NodesOf(m - {u}) && ix.victimsGroupByNode == map[]
    ensures NoVictims(ix, m) ==> NoVictims(Remove(ix, m[u]), m - {u})
  {
    var n, m' := m[u].node, m - {u};
    assert Bucket(ix, n) == OnNode(m, n) && u in OnNode(m, n);
    assert OnNode(m, n) - {u} == OnNode(m', n);
    assert n in NodesOf(m') <==> OnNode(m', n) != map[] by {
      if w :| w in m' && m'[w].node == n {
        assert w in OnNode(m', n);
      }
      if w :| w in OnNode(m', n) {
        assert m'[w].node == n;
      }
    }
    forall n' | n' in NodesOf(m) && n' != n
      ensures n' in NodesOf(m')
    {
      var w :| w in m && m[w].node == n';
      assert m'[w].node == n';
    }
  }

  /** Adding a task whose victims nobody else in the unit claims keeps the agreement. */
  lemma AddKeepsIndex(ix: TaskSetGroupByNode, allVictims: set<Uid>, m: map<Uid, Task>, t: Task)
    requires Indexes(ix, allVictims, m)
    requires t.uid !in m && t.node != ""
    requires t.victims !! allVictims
    ensures Indexes(Add(ix, t), allVictims + t.victims, m[t.uid := t])
  {
    forall n
      ensures Bucket(Add(ix, t), n) == OnNode(m[t.uid := t], n)
      ensures VictimsAt(Add(ix, t), n) == VictimsOn(m[t.uid := t], n)
    {
      AddAtNode(ix, m, t, n);
    }
    GrowVictims(m, t);
    AddKeepsDisjoint(m, t);
  }

  lemma GrowVictims(m: map<Uid, Task>, t: Task)
    requires t.uid !in m
    ensures VictimsOf(m[t.uid := t]) == VictimsOf(m) + t.victims
  {
    var m' := m[t.uid := t];
    forall v | v in VictimsOf(m) + t.victims
      ensures v in VictimsOf(m')
    {
      if v in t.victims {
        assert v in m'[t.uid].victims;
      } else {
        var u :| u in m && v in m[u].victims;
        assert v in m'[u].victims;
      }
    }
  }

  lemma GrowVictimsOn(m: map<Uid, Task>, t: Task, n: NodeName)
    requires t.uid !in m
    ensures VictimsOn(m[t.uid := t], n) == VictimsOn(m, n) + (if t.node == n then t.victims else {})
  {
    var m' := m[t.uid := t];
    forall v | v in VictimsOn(m, n) + (if t.node == n then t.victims else {})
      ensures v in VictimsOn(m', n)
    {
      if t.node == n && v in t.victims {
        assert v in m'[t.uid].victims;
      } else {
        var u :| u in m && m[u].node == n && v in m[u].victims;
        assert v in m'[u].victims;
      }
    }
  }

  /**
   Removing one task of the unit keeps the agreement: the victims dropped from both
   indexes are that task's own and no other task's.
  */
  lemma RemoveKeepsIndex(ix: TaskSetGroupByNode, allVictims: set<Uid>, m: map<Uid, Task>, u: Uid)
    requires Indexes(ix, allVictims, m) && u in m
    ensures Indexes(Remove(ix, m[u]), allVictims - m[u].victims, m - {u})
  {
    var t, m' := m[u], m - {u};
    var ix' := Remove(ix, t);
    assert m == m'[u := t];
    GrowVictims(m', t);
    assert VictimsOf(m') !! t.victims;
    forall n
      ensures Bucket(ix', n) == OnNode(m', n) && VictimsAt(ix', n) == VictimsOn(m', n)
    {
      assert Bucket(ix, n) == OnNode(m, n) && VictimsAt(ix, n) == VictimsOn(m, n);
      GrowVictimsOn(m', t, n);
      assert VictimsOn(m', n) !! t.victims;
      if n == t.node {
        assert OnNode(m', n) == OnNode(m, n) - {u};
      } else {
        assert OnNode(m', n) == OnNode(m, n);
      }
    }
    forall w | w in m'
      ensures m'[w].node in ix'.nodes
    {
      assert Bucket(ix', m'[w].node) == OnNode(m', m'[w].node);
      assert w in OnNode(m', m'[w].node);
    }
  }

  /**
   Removing a task that never entered the index and carries no victims, as happens when
   initialisation of a task fails, leaves the agreement intact.
  */
  lemma RemoveAbsentKeepsIndex(ix: TaskSetGroupByNode, allVictims: set<Uid>, m: map<Uid, Task>, t: Task)
    requires Indexes(ix, allVictims, m) && t.uid !in m && t.victims == {}
    ensures Indexes(Remove(ix, t), allVictims, m)
  {
    var ix' := Remove(ix, t);
    forall n
      ensures Bucket(ix', n) == OnNode(m, n) && VictimsAt(ix', n) == VictimsOn(m, n)
    {
      assert Bucket(ix, n) == OnNode(m, n) && VictimsAt(ix, n) == VictimsOn(m, n);
    }
    forall w | w in m
      ensures m[w].node in ix'.nodes
    {
      assert Bucket(ix', m[w].node) == OnNode(m, m[w].node);
      assert w in OnNode(m, m[w].node);
    }
  }
}
