/**
 The binder cache: pods per node with their summed requests, the assumed flag of each pod,
 and the marks that reserve a victim for one preemptor.
*/
module Caches {

  import opened BinderTypes
  import opened SetSum

  /** A node with additive capacity. */
  datatype NodeInfo = NodeInfo(pods: set<Uid>, requested: int, allocatable: nat)

  /** A pod known to the cache; an assumed pod has not been confirmed by the API server yet. */
  datatype PodState = PodState(node: NodeName, assumed: bool)

  /** The request of each pod, fixed for its lifetime. */
  type Requests = Uid -> nat

  ghost function Total(s: set<Uid>, req: Requests): int {
    Sum(s, u => req(u))
  }

  ghost predicate Accounted(i: NodeInfo, req: Requests) {
    i.requested == Total(i.pods, req)
  }

  function AddPod(i: NodeInfo, u: Uid, req: Requests): NodeInfo {
    if u in i.pods then i else i.(pods := i.pods + {u}, requested := i.requested + req(u))
  }

  function RemovePod(i: NodeInfo, u: Uid, req: Requests): NodeInfo
    requires u in i.pods
  {
    i.(pods := i.pods - {u}, requested := i.requested - req(u))
  }

  lemma AddPodAccounted(i: NodeInfo, u: Uid, req: Requests)
    requires Accounted(i, req)
    ensures Accounted(AddPod(i, u, req), req)
  {
    if u !in i.pods {
      SumAdd(i.pods, u, u => req(u));
    }
  }

  lemma RemovePodAccounted(i: NodeInfo, u: Uid, req: Requests)
    requires Accounted(i, req) && u in i.pods
    ensures Accounted(RemovePod(i, u, req), req)
  {
    SumRemove(i.pods, u, u => req(u));
  }

  /** The node a cache shows for a name; unknown nodes are created empty on demand. */
  function NodeOr(nodes: map<NodeName, NodeInfo>, n: NodeName): NodeInfo {
    if n in nodes then nodes[n] else NodeInfo({}, 0, 0)
  }

  ghost predicate NodesAgree(nodes: map<NodeName, NodeInfo>, states: map<Uid, PodState>, req: Requests) {
    && (forall n :: n in nodes ==> Accounted(nodes[n], req))
    && (forall n, u :: n in nodes && u in nodes[n].pods ==> u in states && states[u].node == n)
    && (forall u :: u in states ==> states[u].node in nodes && u in nodes[states[u].node].pods)
  }

  class BinderCache {
    const request: Requests
    var nodes: map<NodeName, NodeInfo>
    var states: map<Uid, PodState>
    var markers: map<Uid, Uid>

    ghost predicate Valid()
      reads this
    {
      && NodesAgree(nodes, states, request)
      && (forall v :: v in markers ==> v in states && !states[v].assumed)
    }

    constructor (request: Requests)
      ensures Valid() && this.request == request
      ensures nodes == map[] && states == map[] && markers == map[]
    {
      this.request := request;
      nodes, states, markers := map[], map[], map[];
    }

    /**
     Marks a confirmed pod for deletion on behalf of a preemptor, overwriting any mark it has.
     The process ends if the cache knows the pod on another node than its object says.
    */
    method MarkPodToDelete(victim: Uid, node: NodeName, preemptor: Uid) returns (ok: bool, fatal: bool)
      requires Valid()
      modifies this`markers
      ensures Valid()
      ensures fatal <==> victim in states && !states[victim].assumed && states[victim].node != node
      ensures ok <==> victim in states && !states[victim].assumed && states[victim].node == node
      ensures markers == if ok then old(markers)[victim := preemptor] else old(markers)
    {
      ok := victim in states && !states[victim].assumed;
      fatal := ok && states[victim].node != node;
      ok := ok && !fatal;
      if ok {
        markers := markers[victim := preemptor];
      }
    }

    /** Removes a mark, but only the one this preemptor set. */
    method RemoveDeletePodMarker(victim: Uid, preemptor: Uid)
      requires Valid()
      modifies this`markers
      ensures Valid()
      ensures markers ==
        if victim in old(markers) && old(markers)[victim] == preemptor
        then old(markers) - {victim} else old(markers)
    {
      if victim in markers && markers[victim] == preemptor {
        markers := markers - {victim};
      }
    }

    /** Assumes a pod on a node, all or nothing; `storesOk` is the outcome of the stores. */
    method AssumePod(u: Uid, n: NodeName, storesOk: bool) returns (ok: bool)
      requires Valid()
      modifies this`nodes, this`states
      ensures Valid()
      ensures ok <==> u !in old(states) && storesOk
      ensures states == if ok then old(states)[u := PodState(n, true)] else old(states)
      ensures nodes == if ok then old(nodes)[n := AddPod(NodeOr(old(nodes), n), u, request)] else old(nodes)
      ensures ok ==> n in nodes && u in nodes[n].pods
      ensures ok ==> nodes[n].allocatable == if n in old(nodes) then old(nodes)[n].allocatable else 0
    {
      ok := u !in states && storesOk;
      if ok {
        assert Accounted(NodeInfo({}, 0, 0), request);
        AddPodAccounted(NodeOr(nodes, n), u, request);
        nodes := nodes[n := AddPod(NodeOr(nodes, n), u, request)];
        states := states[u := PodState(n, true)];
      }
    }

    /** Forgets an assumed pod; a pod that is not assumed is left alone and that is no error. */
    method ForgetPod(u: Uid, storesOk: bool) returns (ok: bool)
      requires Valid()
      modifies this`nodes, this`states
      ensures Valid()
      ensures ok <==> storesOk || u !in old(states) || !old(states)[u].assumed
      ensures states ==
        if u in old(states) && old(states)[u].assumed && storesOk then old(states) - {u} else old(states)
      ensures
        if u in old(states) && old(states)[u].assumed && storesOk then
          var n := old(states)[u].node;
          n in old(nodes) && u in old(nodes)[n].pods && nodes == old(nodes)[n := RemovePod(old(nodes)[n], u, request)]
        else nodes == old(nodes)
    {
      if u !in states || !states[u].assumed {
        return true;
      }
      ok := storesOk;
      if ok {
        var n := states[u].node;
        RemovePodAccounted(nodes[n], u, request);
        nodes := nodes[n := RemovePod(nodes[n], u, request)];
        states := states - {u};
      }
    }
  }
}
