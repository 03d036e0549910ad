/**
 The embedded binder: binds the pods of a unit one by one through the API server, after its
 request and every target node were validated. Replies of the API server and the moment the
 context ends are arbitrary.
*/
module EmbeddedBinder {

  import opened BinderTypes

  /** An entry of a request: a missing entry, an entry without a pod, or a pod. */
  datatype Entry = Missing | NoPod | Pod(uid: Uid)

  datatype Request = Request(hasUnit: bool, pods: seq<Entry>, nodeName: NodeName, nodeNames: map<Uid, NodeName>)

  datatype Config = Config(scheduler: string, maxBindRetries: int, owners: Option<NodeName -> Option<string>>)

  datatype Reply = Accepted | Transient | Permanent

  /** What happens while pods are bound: a call to the API server, or the end of the context is noticed. */
  datatype Event = Call(uid: Uid, node: NodeName, reply: Reply) | SeenDone

  /**
   What the binder meets, at the event with a given number: the reply to a call, the context
   that ends before event `end`, and whether a retry timer fires before that end is noticed.
  */
  datatype World = World(reply: nat -> Reply, end: nat, timerFirst: nat -> bool)

  datatype Outcome =
    | NotRunning
    | Invalid
    | NotOwned(node: NodeName)
    | Panic
    | Done(successful: seq<Uid>, failed: set<Uid>)

  ghost function UidsIn(pods: seq<Entry>): set<Uid> {
    set i | 0 <= i < |pods| && pods[i].Pod? :: pods[i].uid
  }

  ghost predicate DistinctUids(pods: seq<Entry>) {
    forall i, j :: 0 <= i < j < |pods| && pods[i].Pod? && pods[j].Pod? ==> pods[i].uid != pods[j].uid
  }

  function NodeNameFor(req: Request, uid: Uid): NodeName {
    if uid in req.nodeNames then req.nodeNames[uid] else req.nodeName
  }

  /** A request names a unit, pods, and a node for every pod. */
  ghost predicate IsValid(req: Request) {
    && req.hasUnit && req.pods != []
    && (if req.nodeNames.Keys == {} then req.nodeName != "" else UidsIn(req.pods) <= req.nodeNames.Keys)
  }

  /** The nodes a request may bind to. */
  ghost predicate Targets(req: Request, n: NodeName) {
    if req.nodeNames.Keys == {} then n == req.nodeName != "" else n in req.nodeNames.Values
  }

  /** With an ownership check, a node is this scheduler's if its owner is known to be this one or nobody. */
  ghost predicate Mine(config: Config, n: NodeName) {
    config.owners.Some? ==>
      config.owners.value(n) == Some(config.scheduler) || config.owners.value(n) == Some("")
  }

  /** The ownership check. */
  predicate Owns(config: Config, n: NodeName)
    ensures Owns(config, n) <==> Mine(config, n)
  {
    match config.owners
    case None => true
    case Some(ownerOf) => ownerOf(n).Some? && (ownerOf(n).value == "" || ownerOf(n).value == config.scheduler)
  }

  /** How often a pod may be called for: as configured, but at least once. */
  function MaxCalls(config: Config): (most: nat)
    ensures most >= 1 && most >= config.maxBindRetries && (most == 1 || most == config.maxBindRetries)
  {
    if config.maxBindRetries <= 0 then 1 else config.maxBindRetries
  }

  /** The node a request wants a pod on. */
  ghost predicate WantedOn(req: Request, uid: Uid, n: NodeName) {
    && (uid in req.nodeNames ==> n == req.nodeNames[uid])
    && (uid !in req.nodeNames ==> n == req.nodeName)
  }

  // ---- counting calls

  ghost function CallsFor(log: seq<Event>, uid: Uid): nat {
    if log == [] then 0
    else CallsFor(log[..|log| - 1], uid) + if log[|log| - 1].Call? && log[|log| - 1].uid == uid then 1 else 0
  }

  lemma {:induction false} CallsAdd(a: seq<Event>, b: seq<Event>, uid: Uid)
    ensures CallsFor(a + b, uid) == CallsFor(a, uid) + CallsFor(b, uid)
  {
    if b == [] {
      assert a + b == a;
    } else {
      CallsAdd(a, b[..|b| - 1], uid);
      assert (a + b)[..|a + b| - 1] == a + b[..|b| - 1];
    }
  }

  lemma {:induction false} NoCalls(log: seq<Event>, uid: Uid)
    requires forall i :: 0 <= i < |log| ==> !(log[i].Call? && log[i].uid == uid)
    ensures CallsFor(log, uid) == 0
  {
    if log != [] {
      NoCalls(log[..|log| - 1], uid);
    }
  }

  /** Some call for the pod was accepted. */
  ghost predicate WasBound(log: seq<Event>, uid: Uid) {
    exists i :: 0 <= i < |log| && log[i].Call? && log[i].uid == uid && log[i].reply == Accepted
  }

  /**
   Event `i`, which has number `t + i`: a call gets its reply, the end is noticed only once it has
   come, and from then on the pod under way alone is called for, if its timer fires first.
  */
  ghost predicate HeedsAt(world: World, events: seq<Event>, t: nat, i: nat)
    requires i < |events|
  {
    match events[i]
    case SeenDone => world.end <= t + i
    case Call(uid, node, reply) =>
      && reply == world.reply(t + i)
      && (world.end <= t + i ==> 0 < i && events[i - 1] == Call(uid, node, Transient) && world.timerFirst(t + i))
  }

  ghost predicate Heeds(world: World, events: seq<Event>, t: nat) {
    forall i | 0 <= i < |events| :: HeedsAt(world, events, t, i)
  }

  /** The same for a pod that is called for in any case. */
  ghost predicate HeedsOnceCalled(world: World, events: seq<Event>, t: nat) {
    && (events != [] ==> events[0].Call? && events[0].reply == world.reply(t))
    && (forall i | 0 < i < |events| :: HeedsAt(world, events, t, i) && (events[i].SeenDone? ==> !world.timerFirst(t + i)))
  }

  lemma CalledInTime(world: World, events: seq<Event>, t: nat)
    requires HeedsOnceCalled(world, events, t) && t < world.end
    ensures Heeds(world, events, t)
  {
  }

  lemma HeedsOn(world: World, a: seq<Event>, b: seq<Event>, t: nat)
    requires Heeds(world, a, t) && Heeds(world, b, t + |a|)
    ensures Heeds(world, a + b, t)
  {
    var all := a + b;
    forall i | 0 <= i < |all|
      ensures HeedsAt(world, all, t, i)
    {
      if i < |a| {
        assert HeedsAt(world, a, t, i);
      } else {
        assert HeedsAt(world, b, t + |a|, i - |a|);
        assert t + |a| + (i - |a|) == t + i;
      }
    }
  }

  /** Nothing is called once the end of the context was noticed. */
  ghost predicate StopsWhenDone(log: seq<Event>) {
    forall i, j :: 0 <= i < j < |log| && log[i].SeenDone? ==> log[j].SeenDone?
  }

  // ---- validation

  method Validate(req: Option<Request>) returns (ok: bool)
    ensures ok <==> req.Some? && IsValid(req.value)
  {
    if req == None || !req.value.hasUnit || |req.value.pods| == 0 {
      return false;
    }
    var r := req.value;
    if r.nodeNames.Keys == {} {
      return r.nodeName != "";
    }
    for i := 0 to |r.pods|
      invariant forall j :: 0 <= j < i && r.pods[j].Pod? ==> r.pods[j].uid in r.nodeNames
    {
      if r.pods[i].Pod? && r.pods[i].uid !in r.nodeNames {
        assert r.pods[i].uid in UidsIn(r.pods);
        return false;
      }
    }
    ok := true;
  }

  /** The target nodes, each once. */
  method UniqueNodeNames(req: Request) returns (names: seq<NodeName>)
    ensures forall n :: n in names <==> Targets(req, n)
    ensures forall i, j :: 0 <= i < j < |names| ==> names[i] != names[j]
  {
    if req.nodeNames.Keys == {} {
      return if req.nodeName != "" then [req.nodeName] else [];
    }
    names := [];
    var todo := req.nodeNames.Keys;
    while todo != {}
      invariant todo <= req.nodeNames.Keys
      invariant forall u :: u in req.nodeNames.Keys - todo ==> req.nodeNames[u] in names
      invariant forall n :: n in names ==> n in req.nodeNames.Values
      invariant forall i, j :: 0 <= i < j < |names| ==> names[i] != names[j]
    {
      var u :| u in todo;
      todo := todo - {u};
      if req.nodeNames[u] !in names {
        names := names + [req.nodeNames[u]];
      }
    }
  }

  lemma TargetIsChecked(req: Request, uid: Uid)
    requires IsValid(req) && uid in UidsIn(req.pods)
    ensures Targets(req, NodeNameFor(req, uid))
  {
  }

  // ---- binding

  /** The events of one pod: calls for it only, the last one alone perhaps accepted. */
  ghost predicate PodEvents(events: seq<Event>, uid: Uid, node: NodeName, ok: bool, most: nat) {
    && (forall i :: 0 <= i < |events| && events[i].Call? ==> events[i].uid == uid && events[i].node == node)
    && (forall i :: 0 <= i < |events| - 1 ==> events[i].Call? && events[i].reply == Transient)
    && 1 <= CallsFor(events, uid) <= most
    && events != []
    && (ok <==> events[|events| - 1].Call? && events[|events| - 1].reply == Accepted)
    && (!ok ==>
          || events[|events| - 1].SeenDone?
          || (events[|events| - 1].Call? && events[|events| - 1].reply == Permanent)
          || CallsFor(events, uid) == most)
  }

  /** Why a pod may fail: a permanent error, all calls used up, or the end of the context. */
  ghost predicate Refused(config: Config, log: seq<Event>, uid: Uid) {
    || (exists i :: 0 <= i < |log| && log[i].Call? && log[i].uid == uid && log[i].reply == Permanent)
    || CallsFor(log, uid) >= MaxCalls(config)
    || SeenDone in log
  }

  ghost predicate AllTransient(events: seq<Event>, uid: Uid, node: NodeName) {
    forall i :: 0 <= i < |events| ==> events[i] == Call(uid, node, Transient)
  }

  lemma {:induction false} EachIsACall(events: seq<Event>, uid: Uid, node: NodeName)
    requires AllTransient(events, uid, node)
    ensures CallsFor(events, uid) == |events|
  {
    if events != [] {
      EachIsACall(events[..|events| - 1], uid, node);
    }
  }

  /** However it ends: after some transient errors, with another reply, cancelled, or out of retries. */
  lemma EndsWith(events: seq<Event>, uid: Uid, node: NodeName, last: Event, most: nat)
    requires AllTransient(events, uid, node)
    requires last == SeenDone || (last.Call? && last.uid == uid && last.node == node && last.reply != Transient)
    requires 1 <= |events| + (if last.Call? then 1 else 0) <= most
    ensures PodEvents(events + [last], uid, node, last.Call? && last.reply == Accepted, most)
  {
    EachIsACall(events, uid, node);
    assert (events + [last])[..|events|] == events;
  }

  lemma RunsOut(events: seq<Event>, uid: Uid, node: NodeName, most: nat)
    requires AllTransient(events, uid, node) && 1 <= |events| == most
    ensures PodEvents(events, uid, node, false, most)
  {
    EachIsACall(events, uid, node);
  }

  /** One more event: a call with its reply, or the end. */
  lemma OneMoreHeeds(world: World, events: seq<Event>, t: nat, last: Event)
    requires HeedsOnceCalled(world, events, t)
    requires if events == [] then last.Call? && last.reply == world.reply(t)
             else HeedsAt(world, events + [last], t, |events|) && (last.SeenDone? ==> !world.timerFirst(t + |events|))
    ensures HeedsOnceCalled(world, events + [last], t)
  {
    forall i | 0 < i < |events|
      ensures HeedsAt(world, events + [last], t, i)
    {
      assert HeedsAt(world, events, t, i);
    }
  }

  lemma EndHeeds(world: World, log: seq<Event>)
    requires Heeds(world, log, 0) && world.end <= |log|
    ensures Heeds(world, log + [SeenDone], 0)
  {
    forall i | 0 <= i < |log|
      ensures HeedsAt(world, log + [SeenDone], 0, i)
    {
      assert HeedsAt(world, log, 0, i);
    }
  }

  /**
   Tries to bind a pod from event number `start` on; only transient errors are retried, unless
   the context ends meanwhile.
  */
  method BindPodToNode(uid: Uid, node: NodeName, config: Config, world: World, start: nat)
    returns (ok: bool, t: nat, ghost events: seq<Event>)
    ensures t == start + |events|
    ensures PodEvents(events, uid, node, ok, MaxCalls(config))
    ensures HeedsOnceCalled(world, events, start)
    ensures start < t && forall i: nat | start <= i < t - 1 :: world.reply(i) == Transient
    ensures ok ==> world.reply(t - 1) == Accepted
    ensures !ok ==>
      || world.reply(t - 1) == Permanent || t == start + MaxCalls(config)
      || (world.end <= t - 1 && !world.timerFirst(t - 1))
  {
    hide PodEvents, HeedsOnceCalled;
    var maxRetries := if config.maxBindRetries <= 0 then 1 else config.maxBindRetries;
    t, events := start, [];
    NothingYetHeeded(world, start);
    var attempt := 0;
    while attempt < maxRetries
      invariant 0 <= attempt <= maxRetries && |events| == attempt && t == start + |events|
      invariant AllTransient(events, uid, node) && HeedsOnceCalled(world, events, start)
      invariant attempt > 0 && world.end <= t ==> world.timerFirst(t)
      invariant forall i: nat | start <= i < t :: world.reply(i) == Transient
    {
      var reply := world.reply(t);
      if reply != Transient {
        EndsWith(events, uid, node, Call(uid, node, reply), MaxCalls(config));
      }
      OneMoreHeeds(world, events, start, Call(uid, node, reply));
      t, events := t + 1, events + [Call(uid, node, reply)];
      if reply == Accepted {
        return true, t, events;
      }
      if reply == Permanent {
        return false, t, events;
      }
      assert reply == Transient;
      if world.end <= t && !world.timerFirst(t) {
        EndsWith(events, uid, node, SeenDone, MaxCalls(config));
        OneMoreHeeds(world, events, start, SeenDone);
        return false, t + 1, events + [SeenDone];
      }
      attempt := attempt + 1;
    }
    RunsOut(events, uid, node, MaxCalls(config));
    ok := false;
  }

  lemma NothingYetHeeded(world: World, t: nat)
    ensures HeedsOnceCalled(world, [], t) && Heeds(world, [], t)
  {
  }

  // ---- a whole unit

  ghost predicate CallsOk(req: Request, n: nat, log: seq<Event>)
    requires n <= |req.pods|
  {
    forall i :: 0 <= i < |log| && log[i].Call? ==>
      log[i].uid in UidsIn(req.pods[..n]) && log[i].node == NodeNameFor(req, log[i].uid)
  }

  ghost predicate FewCalls(config: Config, log: seq<Event>) {
    forall u :: CallsFor(log, u) <= MaxCalls(config)
  }

  ghost predicate NoRepeats(successful: seq<Uid>, failed: set<Uid>) {
    && (forall u :: u in successful ==> u !in failed)
    && (forall i, j :: 0 <= i < j < |successful| ==> successful[i] != successful[j])
  }

  /** What the log of the first `n` entries says about them. */
  ghost predicate LogOk(req: Request, config: Config, n: nat, log: seq<Event>, successful: seq<Uid>, failed: set<Uid>)
    requires n <= |req.pods|
  {
    && (set u | u in successful) + failed == UidsIn(req.pods[..n])
    && (forall u :: u in successful <==> WasBound(log, u))
    && CallsOk(req, n, log)
    && (DistinctUids(req.pods) ==> FewCalls(config, log) && NoRepeats(successful, failed))
    && StopsWhenDone(log)
    && (forall u :: u in failed ==> Refused(config, log, u))
  }

  lemma {:induction false} SomeCall(log: seq<Event>, uid: Uid)
    requires CallsFor(log, uid) > 0
    ensures exists i :: 0 <= i < |log| && log[i].Call? && log[i].uid == uid
  {
    if !(log[|log| - 1].Call? && log[|log| - 1].uid == uid) {
      SomeCall(log[..|log| - 1], uid);
      var i :| 0 <= i < |log| - 1 && log[..|log| - 1][i].Call? && log[..|log| - 1][i].uid == uid;
      assert log[i].uid == uid;
    }
  }

  /** A pod that failed was tried, or the context had ended. */
  lemma RefusedWasTried(config: Config, log: seq<Event>, uid: Uid)
    requires Refused(config, log, uid)
    ensures SeenDone in log || exists i :: 0 <= i < |log| && log[i].Call? && log[i].uid == uid
  {
    if CallsFor(log, uid) > 0 {
      SomeCall(log, uid);
    }
  }

  lemma RefusedStays(config: Config, log: seq<Event>, events: seq<Event>, uid: Uid)
    requires Refused(config, log, uid) || Refused(config, events, uid)
    ensures Refused(config, log + events, uid)
  {
    var all := log + events;
    CallsAdd(log, events, uid);
    if i :| 0 <= i < |log| && log[i].Call? && log[i].uid == uid && log[i].reply == Permanent {
      assert all[i] == log[i];
    } else if i :| 0 <= i < |events| && events[i].Call? && events[i].uid == uid && events[i].reply == Permanent {
      assert all[|log| + i] == events[i];
    }
  }

  lemma EventsRefuse(config: Config, events: seq<Event>, uid: Uid, node: NodeName)
    requires PodEvents(events, uid, node, false, MaxCalls(config))
    ensures Refused(config, events, uid)
  {
    assert events[|events| - 1] in events;
  }

  lemma UidsGrow(pods: seq<Entry>, n: nat)
    requires n < |pods|
    ensures UidsIn(pods[..n + 1]) == UidsIn(pods[..n]) + if pods[n].Pod? then {pods[n].uid} else {}
    ensures DistinctUids(pods) && pods[n].Pod? ==> pods[n].uid !in UidsIn(pods[..n])
  {
    var p, q := pods[..n], pods[..n + 1];
    assert forall i :: 0 <= i < n ==> q[i] == p[i] == pods[i];
    assert q[n] == pods[n];
    forall u | u in UidsIn(p)
      ensures u in UidsIn(q)
    {
      var i :| 0 <= i < |p| && p[i].Pod? && p[i].uid == u;
      assert q[i].uid == u;
    }
    if pods[n].Pod? {
      assert q[n].uid in UidsIn(q);
    }
  }

  lemma BoundGrows(log: seq<Event>, events: seq<Event>, uid: Uid, node: NodeName, ok: bool, most: nat, u: Uid)
    requires PodEvents(events, uid, node, ok, most)
    ensures WasBound(log + events, u) <==> WasBound(log, u) || (u == uid && ok)
  {
    var all := log + events;
    assert forall i :: 0 <= i < |log| ==> all[i] == log[i];
    assert forall i :: 0 <= i < |events| ==> all[|log| + i] == events[i];
    assert forall i :: |log| <= i < |all| ==> all[i] == events[i - |log|];
    if u == uid && ok {
      assert all[|all| - 1] == events[|events| - 1];
    }
  }

  lemma CallsGrow(req: Request, config: Config, n: nat, log: seq<Event>, events: seq<Event>, node: NodeName, ok: bool)
    requires n < |req.pods| && req.pods[n].Pod? && node == NodeNameFor(req, req.pods[n].uid)
    requires CallsOk(req, n, log) && PodEvents(events, req.pods[n].uid, node, ok, MaxCalls(config))
    ensures CallsOk(req, n + 1, log + events)
    ensures DistinctUids(req.pods) && FewCalls(config, log) ==> FewCalls(config, log + events)
  {
    var uid := req.pods[n].uid;
    UidsGrow(req.pods, n);
    assert forall i :: |log| <= i < |log + events| ==> (log + events)[i] == events[i - |log|];
    if DistinctUids(req.pods) && FewCalls(config, log) {
      NoCalls(log, uid);
      forall u
        ensures CallsFor(log + events, u) <= MaxCalls(config)
      {
        CallsAdd(log, events, u);
        if u != uid {
          NoCalls(events, u);
        }
      }
    }
  }

  lemma Stops(log: seq<Event>, events: seq<Event>, uid: Uid, node: NodeName, ok: bool, most: nat)
    requires PodEvents(events, uid, node, ok, most) && SeenDone !in log
    ensures StopsWhenDone(log + events)
    ensures SeenDone in log + events ==> SeenDone in events
  {
    var all := log + events;
    assert forall i :: |log| <= i < |all| ==> all[i] == events[i - |log|];
    assert forall i :: 0 <= i < |log| ==> all[i] == log[i] && log[i] in log;
    assert forall i :: 0 <= i < |all| - 1 ==> !all[i].SeenDone?;
  }

  /** A pod was tried. */
  lemma Tried(
    req: Request, config: Config, n: nat, log: seq<Event>, successful: seq<Uid>, failed: set<Uid>,
    events: seq<Event>, node: NodeName, ok: bool)
    requires n < |req.pods| && req.pods[n].Pod? && node == NodeNameFor(req, req.pods[n].uid)
    requires LogOk(req, config, n, log, successful, failed) && SeenDone !in log
    requires PodEvents(events, req.pods[n].uid, node, ok, MaxCalls(config))
    ensures LogOk(req, config, n + 1, log + events,
      if ok then successful + [req.pods[n].uid] else successful, if ok then failed else failed + {req.pods[n].uid})
  {
    hide PodEvents, StopsWhenDone, CallsOk, FewCalls, WasBound, UidsIn, DistinctUids, Refused;
    var uid := req.pods[n].uid;
    forall u | u in failed || (u == uid && !ok)
      ensures Refused(config, log + events, u)
    {
      if u == uid && !ok {
        EventsRefuse(config, events, uid, node);
      }
      RefusedStays(config, log, events, u);
    }
    UidsGrow(req.pods, n);
    CallsGrow(req, config, n, log, events, node, ok);
    Stops(log, events, uid, node, ok, MaxCalls(config));
    forall u
      ensures WasBound(log + events, u) <==> WasBound(log, u) || (u == uid && ok)
    {
      BoundGrows(log, events, uid, node, ok, MaxCalls(config), u);
    }
    assert successful != [] ==> successful[0] in (set u | u in successful);
    assert forall i :: 0 <= i < |successful| ==> successful[i] in (set u | u in successful);
  }

  /** The context had ended before the pod's turn. */
  lemma Cancelled(req: Request, config: Config, n: nat, log: seq<Event>, successful: seq<Uid>, failed: set<Uid>)
    requires n < |req.pods| && req.pods[n].Pod?
    requires LogOk(req, config, n, log, successful, failed)
    ensures LogOk(req, config, n + 1, log + [SeenDone], successful, failed + {req.pods[n].uid})
  {
    hide DistinctUids, UidsIn;
    UidsGrow(req.pods, n);
    var log' := log + [SeenDone];
    assert log'[..|log|] == log;
    assert log'[|log|] in log';
    assert forall i :: 0 <= i < |log| ==> log'[i] == log[i];
    forall u
      ensures WasBound(log', u) <==> WasBound(log, u)
    {
    }
    forall u
      ensures CallsFor(log', u) == CallsFor(log, u)
    {
    }
  }

  lemma Skipped(req: Request, config: Config, n: nat, log: seq<Event>, successful: seq<Uid>, failed: set<Uid>)
    requires n < |req.pods| && req.pods[n] == NoPod
    requires LogOk(req, config, n, log, successful, failed)
    ensures LogOk(req, config, n + 1, log, successful, failed)
  {
    UidsGrow(req.pods, n);
  }

  lemma NothingYet(req: Request, config: Config)
    ensures LogOk(req, config, 0, [], [], {})
  {
    assert UidsIn(req.pods[..0]) == {};
  }

  /** Every call went to a node that the ownership check accepted. */
  ghost predicate CallsOwned(config: Config, log: seq<Event>) {
    forall i :: 0 <= i < |log| && log[i].Call? ==> Mine(config, log[i].node)
  }

  /** Every call was for a pod of the request, on the node it is wanted on. */
  ghost predicate CallsWanted(req: Request, log: seq<Event>) {
    forall i :: 0 <= i < |log| && log[i].Call? ==>
      log[i].uid in UidsIn(req.pods) && WantedOn(req, log[i].uid, log[i].node)
  }

  /** Some target of the request is not, or no longer, this scheduler's. */
  ghost predicate Astray(req: Request, config: Config) {
    exists n :: Targets(req, n) && !Mine(config, n)
  }

  ghost predicate Accepts(req: Option<Request>, config: Config) {
    req.Some? && IsValid(req.value) && !Astray(req.value, config)
  }

  /**
   Binds the pods of a unit. When it returns a result, every pod is reported, as bound exactly
   if the API server accepted it; with distinct identifiers a pod is reported once and called
   for a bounded number of times. It only calls for owned nodes. Once the context has ended no
   further pod is called for. A request with a missing entry passes validation and then panics.
  */
  method BindUnit(running: bool, req: Option<Request>, config: Config, world: World)
    returns (outcome: Outcome, ghost log: seq<Event>)
    ensures outcome == NotRunning <==> !running
    ensures outcome == Invalid <==> running && !(req.Some? && IsValid(req.value))
    ensures outcome.NotOwned? <==> running && req.Some? && IsValid(req.value) && Astray(req.value, config)
    ensures outcome == Panic <==> running && Accepts(req, config) && Missing in req.value.pods
    ensures !Accepts(req, config) ==> log == []
    ensures outcome.Done? ==>
      && (set u | u in outcome.successful) + outcome.failed == UidsIn(req.value.pods)
      && (forall u :: u in outcome.successful <==> WasBound(log, u))
      && (forall u :: u in outcome.failed ==> Refused(config, log, u))
      && (DistinctUids(req.value.pods) ==>
            FewCalls(config, log) && NoRepeats(outcome.successful, outcome.failed))
    ensures outcome.NotOwned? ==> Targets(req.value, outcome.node) && !Mine(config, outcome.node)
    ensures CallsOwned(config, log) && StopsWhenDone(log) && Heeds(world, log, 0)
    ensures req.Some? ==> CallsWanted(req.value, log)
  {
    hide Heeds, HeedsOnceCalled, CallsWanted, LogOk, IsValid, FewCalls, NoRepeats, UidsIn, WasBound, DistinctUids, Owns,
         Targets, Refused;
    log := [];
    NoneCalled(req);
    NothingYetHeeded(world, 0);
    if !running {
      return NotRunning, log;
    }
    var valid := Validate(req);
    if !valid {
      return Invalid, log;
    }
    var r := req.value;
    var names := UniqueNodeNames(r);
    for i := 0 to |names|
      invariant forall j :: 0 <= j < i ==> Owns(config, names[j])
    {
      if !Owns(config, names[i]) {
        return NotOwned(names[i]), log;
      }
    }
    assert forall n :: Targets(r, n) ==> Owns(config, n);
    var successful: seq<Uid>, failed: set<Uid>, t: nat := [], {}, 0;
    NothingYet(r, config);
    for i := 0 to |r.pods|
      invariant Missing !in r.pods[..i]
      invariant LogOk(r, config, i, log, successful, failed)
      invariant t == |log| && Heeds(world, log, 0) && (SeenDone in log ==> world.end <= t)
    {
      if r.pods[i] == Missing {
        PartOwned(r, config, i, log, successful, failed);
        return Panic, log;
      }
      if r.pods[i] == NoPod {
        Skipped(r, config, i, log, successful, failed);
        continue;
      }
      var uid := r.pods[i].uid;
      if world.end <= t {
        Cancelled(r, config, i, log, successful, failed);
        EndHeeds(world, log);
        t, log, failed := t + 1, log + [SeenDone], failed + {uid};
        continue;
      }
      var ok; ghost var events;
      ok, t, events := BindPodToNode(uid, NodeNameFor(r, uid), config, world, t);
      Tried(r, config, i, log, successful, failed, events, NodeNameFor(r, uid), ok);
      CalledInTime(world, events, |log|);
      HeedsOn(world, log, events, 0);
      log := log + events;
      if SeenDone in log {
        SeenIsOver(world, log);
      }
      if ok {
        successful := successful + [uid];
      } else {
        failed := failed + {uid};
      }
    }
    assert r.pods[..|r.pods|] == r.pods;
    PartOwned(r, config, |r.pods|, log, successful, failed);
    Reported(r, config, log, successful, failed);
    outcome := Done(successful, failed);
  }

  lemma SeenIsOver(world: World, log: seq<Event>)
    requires Heeds(world, log, 0) && SeenDone in log
    ensures world.end <= |log|
  {
    var i :| 0 <= i < |log| && log[i] == SeenDone;
    assert HeedsAt(world, log, 0, i);
  }

  lemma NoneCalled(req: Option<Request>)
    ensures req.Some? ==> CallsWanted(req.value, [])
  {
  }

  lemma PartOwned(req: Request, config: Config, n: nat, log: seq<Event>, successful: seq<Uid>, failed: set<Uid>)
    requires n <= |req.pods| && IsValid(req) && LogOk(req, config, n, log, successful, failed)
    requires forall m :: Targets(req, m) ==> Owns(config, m)
    ensures CallsOwned(config, log) && StopsWhenDone(log) && CallsWanted(req, log)
  {
    forall i | 0 <= i < |log| && log[i].Call?
      ensures Mine(config, log[i].node) && log[i].uid in UidsIn(req.pods) && WantedOn(req, log[i].uid, log[i].node)
    {
      var u := log[i].uid;
      var k :| 0 <= k < n && req.pods[..n][k].Pod? && req.pods[..n][k].uid == u;
      assert req.pods[k].uid == u;
      TargetIsChecked(req, u);
    }
  }

  lemma Reported(req: Request, config: Config, log: seq<Event>, successful: seq<Uid>, failed: set<Uid>)
    requires LogOk(req, config, |req.pods|, log, successful, failed)
    ensures (set u | u in successful) + failed == UidsIn(req.pods)
    ensures forall u :: u in successful <==> WasBound(log, u)
    ensures forall u :: u in failed ==> Refused(config, log, u)
    ensures DistinctUids(req.pods) ==> FewCalls(config, log) && NoRepeats(successful, failed)
  {
    assert req.pods[..|req.pods|] == req.pods;
  }
}
