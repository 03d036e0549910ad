/**
 The scheduler maintainer of the dispatcher: an index from schedulers to the nodes of their
 partitions, kept from node and scheduler events alone. Over every well-formed stream of
 events the index is exactly what the annotations of the live nodes say.
*/
module Maintainer {

  import opened BinderTypes

  datatype GodelScheduler = GodelScheduler(active: bool, nodes: set<NodeName>)

  type Schedulers = map<string, GodelScheduler>

  /** The nodes that are annotated with a scheduler. */
  ghost function NodesOf(annotations: map<NodeName, string>, s: string): set<NodeName> {
    set n | n in annotations && annotations[n] == s
  }

  /** The index is exactly the inverse of the annotations; the empty annotation is no scheduler. */
  ghost predicate Refines(schedulers: Schedulers, annotations: map<NodeName, string>) {
    && "" !in schedulers
    && (forall s :: s in schedulers ==> schedulers[s].nodes == NodesOf(annotations, s))
    && (forall n :: n in annotations && annotations[n] != "" ==> annotations[n] in schedulers)
  }

  /** A node is in one partition at most. */
  lemma OnePartition(schedulers: Schedulers, annotations: map<NodeName, string>, s: string, t: string, n: NodeName)
    requires Refines(schedulers, annotations) && s in schedulers && t in schedulers
    requires n in schedulers[s].nodes && n in schedulers[t].nodes
    ensures s == t
  {
    assert annotations[n] == s;
  }

  ghost predicate SameActivity(before: Schedulers, after: Schedulers) {
    forall s :: s in before ==> s in after && after[s].active == before[s].active
  }

  /** A node enters a partition; a scheduler that is not known yet is taken to be active. */
  function Entered(schedulers: Schedulers, s: string, n: NodeName): Schedulers {
    schedulers[s :=
      if s in schedulers then schedulers[s].(nodes := schedulers[s].nodes + {n}) else GodelScheduler(true, {n})]
  }

  function Left(schedulers: Schedulers, s: string, n: NodeName): Schedulers {
    if s in schedulers then schedulers[s := schedulers[s].(nodes := schedulers[s].nodes - {n})] else schedulers
  }

  lemma Annotated(annotations: map<NodeName, string>, n: NodeName, after: string, s: string)
    ensures NodesOf(annotations[n := after], s) == NodesOf(annotations, s) - {n} + if s == after then {n} else {}
  {
  }

  lemma Appears(schedulers: Schedulers, annotations: map<NodeName, string>, n: NodeName, s: string)
    requires Refines(schedulers, annotations) && (n in annotations ==> annotations[n] == s)
    ensures Refines(if s == "" then schedulers else Entered(schedulers, s, n), annotations[n := s])
  {
    forall t
      ensures NodesOf(annotations[n := s], t) == NodesOf(annotations, t) + if t == s then {n} else {}
    {
      Annotated(annotations, n, s, t);
    }
  }

  lemma Stays(schedulers: Schedulers, annotations: map<NodeName, string>, n: NodeName, s: string)
    requires Refines(schedulers, annotations) && s in schedulers && n in schedulers[s].nodes
    ensures Refines(schedulers, annotations[n := s])
  {
    assert annotations[n := s] == annotations;
  }

  lemma Leaves(schedulers: Schedulers, annotations: map<NodeName, string>, n: NodeName, s: string)
    requires Refines(schedulers, annotations) && (n in annotations ==> annotations[n] == s)
    ensures Refines(Left(schedulers, s, n), annotations - {n})
  {
    forall t
      ensures NodesOf(annotations - {n}, t) == NodesOf(annotations, t) - if t == s then {n} else {}
    {
    }
  }

  lemma Relabelled(schedulers: Schedulers, annotations: map<NodeName, string>, n: NodeName, before: string, after: string)
    requires Refines(schedulers, annotations) && (n in annotations ==> annotations[n] == before)
    ensures
      var left := if before == "" then schedulers else Left(schedulers, before, n);
      Refines(if after == "" then left else Entered(left, after, n), annotations[n := after])
  {
    hide Refines;
    var left := if before == "" then schedulers else Left(schedulers, before, n);
    Leaves(schedulers, annotations, n, before);
    NoEmptyName(schedulers, annotations);
    Appears(left, annotations - {n}, n, after);
    assert (annotations - {n})[n := after] == annotations[n := after];
  }

  lemma NoEmptyName(schedulers: Schedulers, annotations: map<NodeName, string>)
    requires Refines(schedulers, annotations)
    ensures "" !in schedulers
  {
  }

  ghost function Active(schedulers: Schedulers): set<string> {
    set s | s in schedulers && schedulers[s].active
  }

  function Load(schedulers: Schedulers, s: string): nat {
    if s in schedulers then |schedulers[s].nodes| else 0
  }

  ghost predicate IsLeast(schedulers: Schedulers, s: string) {
    s in Active(schedulers) && forall t :: t in Active(schedulers) ==> Load(schedulers, s) <= Load(schedulers, t)
  }

  ghost predicate IsMost(schedulers: Schedulers, s: string) {
    s in Active(schedulers) && forall t :: t in Active(schedulers) ==> Load(schedulers, t) <= Load(schedulers, s)
  }

  datatype Extremes = Extremes(mostName: string, most: nat, leastName: string, least: nat)

  class SchedulerMaintainer {
    var schedulers: Schedulers
    /** The live nodes with their annotations, as the events so far tell. */
    ghost var annotations: map<NodeName, string>

    ghost predicate Valid()
      reads this
    {
      Refines(schedulers, annotations)
    }

    constructor ()
      ensures Valid() && annotations == map[] && schedulers == map[]
    {
      schedulers, annotations := map[], map[];
    }

    // ---- scheduler events

    /** A scheduler that is new counts as active; a known one is active as long as it reports. */
    method UpdateScheduler(name: string, reports: bool)
      requires Valid() && name != ""
      modifies this`schedulers
      ensures Valid()
      ensures schedulers.Keys == old(schedulers).Keys + {name}
      ensures schedulers[name].active == (reports || name !in old(schedulers))
      ensures forall s :: s in old(schedulers) && s != name ==> schedulers[s] == old(schedulers)[s]
    {
      if name !in schedulers {
        assert NodesOf(annotations, name) == {};
        schedulers := schedulers[name := GodelScheduler(true, {})];
      } else {
        schedulers := schedulers[name := schedulers[name].(active := reports)];
      }
    }

    /** A scheduler that still has nodes stays, inactive, so that no node loses its partition. */
    method DeleteScheduler(name: string)
      requires Valid()
      modifies this`schedulers
      ensures Valid()
      ensures name in schedulers <==> name in old(schedulers) && NodesOf(annotations, name) != {}
      ensures name in schedulers ==> !schedulers[name].active
      ensures schedulers - {name} == old(schedulers) - {name}
    {
      if name in schedulers {
        if |schedulers[name].nodes| == 0 {
          assert forall n :: n in annotations && annotations[n] == name ==> n in schedulers[name].nodes;
          schedulers := schedulers - {name};
        } else {
          schedulers := schedulers[name := schedulers[name].(active := false)];
        }
      }
    }

    // ---- node events

    method AddNodeToScheduler(s: string, n: NodeName)
      modifies this`schedulers
      ensures schedulers == Entered(old(schedulers), s, n)
    {
      if s !in schedulers {
        schedulers := schedulers[s := GodelScheduler(true, {n})];
      } else {
        schedulers := schedulers[s := schedulers[s].(nodes := schedulers[s].nodes + {n})];
      }
    }

    method RemoveNodeFromScheduler(s: string, n: NodeName)
      modifies this`schedulers
      ensures schedulers == Left(old(schedulers), s, n)
    {
      if s in schedulers {
        schedulers := schedulers[s := schedulers[s].(nodes := schedulers[s].nodes - {n})];
      }
    }

    /** A node appears, or appears again. */
    method AddNode(n: NodeName, annotation: string)
      requires Valid() && (n in annotations ==> annotations[n] == annotation)
      modifies this
      ensures Valid() && annotations == old(annotations)[n := annotation]
      ensures SameActivity(old(schedulers), schedulers)
      ensures schedulers.Keys == old(schedulers).Keys + if annotation == "" then {} else {annotation}
      ensures forall s :: s in schedulers && s !in old(schedulers) ==> schedulers[s].active
    {
      hide Refines;
      Appears(schedulers, annotations, n, annotation);
      annotations := annotations[n := annotation];
      if annotation != "" {
        AddNodeToScheduler(annotation, n);
      }
    }

    /** A node changes, perhaps its annotation; its first event may have been missed. */
    method UpdateNode(n: NodeName, before: string, after: string)
      requires Valid() && (n in annotations ==> annotations[n] == before)
      modifies this
      ensures Valid() && annotations == old(annotations)[n := after]
      ensures SameActivity(old(schedulers), schedulers)
      ensures schedulers.Keys == old(schedulers).Keys + if after == "" then {} else {after}
      ensures forall s :: s in schedulers && s !in old(schedulers) ==> schedulers[s].active
    {
      hide Refines;
      if before == after && after != "" {
        if !(after in schedulers && n in schedulers[after].nodes) {
          Appears(schedulers, annotations, n, after);
          AddNodeToScheduler(after, n);
        } else {
          Stays(schedulers, annotations, n, after);
        }
      } else {
        Relabelled(schedulers, annotations, n, before, after);
        if before != "" {
          RemoveNodeFromScheduler(before, n);
        }
        if after != "" {
          AddNodeToScheduler(after, n);
        }
      }
      annotations := annotations[n := after];
    }

    /** A node disappears. */
    method DeleteNode(n: NodeName, annotation: string)
      requires Valid() && (n in annotations ==> annotations[n] == annotation)
      modifies this
      ensures Valid() && annotations == old(annotations) - {n}
      ensures SameActivity(old(schedulers), schedulers) && schedulers.Keys == old(schedulers).Keys
    {
      Leaves(schedulers, annotations, n, annotation);
      annotations := annotations - {n};
      if annotation != "" {
        RemoveNodeFromScheduler(annotation, n);
      }
    }

    // ---- queries

    /** The active scheduler with the fewest nodes. */
    method LeastLoaded() returns (r: Option<(string, nat)>)
      ensures r == None <==> Active(schedulers) == {}
      ensures r.Some? ==> IsLeast(schedulers, r.value.0) && r.value.1 == Load(schedulers, r.value.0)
    {
      r := None;
      var todo := schedulers.Keys;
      while todo != {}
        invariant todo <= schedulers.Keys
        invariant r == None <==> Active(schedulers) <= todo
        invariant r.Some? ==> r.value.0 in Active(schedulers) - todo && r.value.1 == Load(schedulers, r.value.0)
        invariant r.Some? ==> forall s :: s in Active(schedulers) - todo ==> r.value.1 <= Load(schedulers, s)
      {
        var s :| s in todo;
        todo := todo - {s};
        if schedulers[s].active {
          assert s in Active(schedulers);
          if r == None || |schedulers[s].nodes| < r.value.1 {
            r := Some((s, |schedulers[s].nodes|));
          }
        }
      }
    }

    /** The active schedulers with the most and the fewest nodes. */
    method MostAndLeastLoaded() returns (r: Option<Extremes>)
      ensures r == None <==> Active(schedulers) == {}
      ensures r.Some? ==>
        && IsMost(schedulers, r.value.mostName) && r.value.most == Load(schedulers, r.value.mostName)
        && IsLeast(schedulers, r.value.leastName) && r.value.least == Load(schedulers, r.value.leastName)
    {
      r := None;
      var todo := schedulers.Keys;
      while todo != {}
        invariant todo <= schedulers.Keys
        invariant r == None <==> Active(schedulers) <= todo
        invariant r.Some? ==>
          && r.value.mostName in Active(schedulers) - todo && r.value.most == Load(schedulers, r.value.mostName)
          && r.value.leastName in Active(schedulers) - todo && r.value.least == Load(schedulers, r.value.leastName)
        invariant r.Some? ==> forall s :: s in Active(schedulers) - todo ==>
          r.value.least <= Load(schedulers, s) <= r.value.most
      {
        var s :| s in todo;
        todo := todo - {s};
        if schedulers[s].active {
          assert s in Active(schedulers);
          var load := |schedulers[s].nodes|;
          if r == None {
            r := Some(Extremes(s, load, s, load));
          } else if load > r.value.most {
            r := Some(r.value.(mostName := s, most := load));
          } else if load < r.value.least {
            r := Some(r.value.(leastName := s, least := load));
          }
        }
      }
    }

    /** Some nodes of an active scheduler, but never all of them. */
    method SomeNodes(count: int, s: string) returns (r: Option<seq<NodeName>>)
      ensures r == None <==> count > 0 && !(s in Active(schedulers) && Load(schedulers, s) > count)
      ensures r.Some? ==>
        && |r.value| == (if count > 0 then count else 0)
        && (forall i, j :: 0 <= i < j < |r.value| ==> r.value[i] != r.value[j])
        && (forall i :: 0 <= i < |r.value| ==> s in schedulers && r.value[i] in schedulers[s].nodes)
    {
      if count <= 0 {
        return Some([]);
      }
      if s !in schedulers || !schedulers[s].active || |schedulers[s].nodes| <= count {
        return None;
      }
      var todo, names := schedulers[s].nodes, [];
      while |names| < count
        invariant |names| <= count && todo <= schedulers[s].nodes && |todo| + |names| == |schedulers[s].nodes|
        invariant forall i :: 0 <= i < |names| ==> names[i] in schedulers[s].nodes - todo
        invariant forall i, j :: 0 <= i < j < |names| ==> names[i] != names[j]
      {
        var n :| n in todo;
        todo, names := todo - {n}, names + [n];
      }
      r := Some(names);
    }
  }
}
