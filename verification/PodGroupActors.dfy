/**
 The two programs that touch the final-operation lock, as they run: each talks to the API
 server request by request while everybody else goes on working in between.
*/
module PodGroupActors {

  import opened BinderTypes
  import opened PodGroupProtocol

  /** A PodGroup in the API server and everybody at work on it; the ghost fields are the run so far. */
  class World {
    var now: State
    ghost var states: seq<State>
    ghost var steps: seq<Step>

    ghost predicate Valid()
      reads this
    {
      IsRun(states, steps) && now == states[|steps|] && Inv(now)
    }

    constructor (pg: PodGroup)
      requires pg.phase == Unset
      ensures Valid() && now == State([pg], map[])
    {
      now := State([pg], map[]);
      states, steps := [State([pg], map[])], [];
    }

    method Take(step: Step)
      requires Valid() && Enabled(now, step)
      modifies this
      ensures Valid() && now == Apply(old(now), step)
      ensures states == old(states) + [now] && steps == old(steps) + [step]
      ensures old(now.history) <= now.history
    {
      StepKeepsInv(now, step);
      now := Apply(now, step);
      states, steps := states + [now], steps + [step];
    }

    /** Whatever the others do meanwhile: any number of steps of any of them. */
    method Interleave(me: nat)
      requires Valid()
      modifies this
      ensures Valid() && old(states) <= states && old(steps) <= steps
      ensures old(now.history) <= now.history
      ensures ActorOf(now, me) == old(ActorOf(now, me))
      ensures forall i :: |old(steps)| <= i < |steps| ==> !IsBy(steps[i], me)
    {
      var n: int := *;
      while n > 0
        invariant Valid() && old(states) <= states && old(steps) <= steps
        invariant old(now.history) <= now.history
        invariant ActorOf(now, me) == old(ActorOf(now, me))
        invariant forall i :: |old(steps)| <= i < |steps| ==> !IsBy(steps[i], me)
      {
        n := n - 1;
        var step: Step := *;
        if Enabled(now, step) && !IsBy(step, me) {
          Take(step);
        }
      }
    }

    /** A read from the informer store, which may lag behind by any number of versions. */
    method Read() returns (version: nat)
      requires Valid()
      ensures version < |now.history|
    {
      version := *;
      if version >= |now.history| {
        version := 0;
      }
    }

    /** How a write of a copy read at `base` ends: it conflicts unless that is still the latest version. */
    method Outcome(base: nat) returns (reply: Reply)
      requires Valid()
      ensures Writes(reply) ==> Current(now, base)
    {
      reply := *;
      if Writes(reply) && !Current(now, base) {
        reply := Conflict;
      }
    }
  }

  /** Some version of the PodGroup is locked by somebody else. */
  ghost predicate HeldByOther(history: seq<PodGroup>, op: string) {
    exists v :: 0 <= v < |history| && history[v].finalOp.Some? && history[v].finalOp != Some(op)
  }

  /** A write of the lock was answered in this way. */
  ghost predicate Answered(steps: seq<Step>, from: nat, me: nat, reply: Reply) {
    exists i :: from <= i < |steps| && steps[i] == PutLock(me, reply)
  }

  /** A write of the lock was not answered with success. */
  ghost predicate SomeWriteFailed(steps: seq<Step>, from: nat, me: nat) {
    exists i :: from <= i < |steps| && steps[i].PutLock? && steps[i].a == me && steps[i].reply != Applied
  }

  /** How many writes of the lock the caller sent. */
  ghost function Requests(steps: seq<Step>, from: nat, me: nat): nat {
    if |steps| <= from then 0
    else
      var last := steps[|steps| - 1];
      Requests(steps[..|steps| - 1], from, me) + if last.PutLock? && last.a == me then 1 else 0
  }

  lemma {:induction false} OthersRequest(before: seq<Step>, steps: seq<Step>, from: nat, me: nat)
    requires before <= steps && forall i :: |before| <= i < |steps| ==> !IsBy(steps[i], me)
    ensures Requests(steps, from, me) == Requests(before, from, me)
  {
    if |steps| == |before| {
      assert steps == before;
    } else {
      assert !IsBy(steps[|steps| - 1], me);
      OthersRequest(before, steps[..|steps| - 1], from, me);
    }
  }

  lemma {:induction false} NoRequests(steps: seq<Step>, from: nat, me: nat)
    requires NoneAnswered(steps, from, me)
    ensures Requests(steps, from, me) == 0
  {
    if |steps| > from {
      NoRequests(steps[..|steps| - 1], from, me);
    }
  }

  lemma OneMoreRequest(before: seq<Step>, from: nat, me: nat, reply: Reply)
    requires from <= |before|
    ensures Requests(before + [PutLock(me, reply)], from, me) == Requests(before, from, me) + 1
  {
    var steps := before + [PutLock(me, reply)];
    assert steps[..|steps| - 1] == before;
  }

  /** The lock was given up: a write conflicted, or three of them failed. */
  ghost predicate GaveUp(steps: seq<Step>, from: nat, me: nat) {
    Answered(steps, from, me, Conflict) || Requests(steps, from, me) == 3
  }

  /** One of the caller's own requests changed the stored lock. */
  ghost predicate WroteLock(states: seq<State>, steps: seq<Step>, from: nat, me: nat)
    requires |states| == |steps| + 1
  {
    exists i :: from <= i < |steps| && steps[i].PutLock? && steps[i].a == me && states[i + 1].history != states[i].history
  }

  /** A request writes the lock exactly if it is answered with success or its answer is lost. */
  lemma RequestWrites(states: seq<State>, steps: seq<Step>, i: nat)
    requires IsRun(states, steps) && i < |steps| && steps[i].PutLock?
    ensures states[i + 1].history != states[i].history <==> Writes(steps[i].reply)
  {
    assert Leads(states[i], steps[i], states[i + 1]);
    assert Writes(steps[i].reply) ==> |states[i + 1].history| == |states[i].history| + 1;
  }

  lemma OwnWrites(states: seq<State>, steps: seq<Step>, from: nat, me: nat)
    requires IsRun(states, steps)
    ensures WroteLock(states, steps, from, me) <==> Answered(steps, from, me, Applied) || Answered(steps, from, me, Lost)
  {
    hide Init, Leads;
    forall i | from <= i < |steps| && steps[i].PutLock?
      ensures states[i + 1].history != states[i].history <==> Writes(steps[i].reply)
    {
      RequestWrites(states, steps, i);
    }
    if i :| from <= i < |steps| && steps[i] == PutLock(me, Applied) {
      assert steps[i].PutLock? && steps[i].a == me && states[i + 1].history != states[i].history;
    }
    if i :| from <= i < |steps| && steps[i] == PutLock(me, Lost) {
      assert steps[i].PutLock? && steps[i].a == me && states[i + 1].history != states[i].history;
    }
    if i :| from <= i < |steps| && steps[i].PutLock? && steps[i].a == me && states[i + 1].history != states[i].history {
      assert steps[i] == PutLock(me, Applied) || steps[i] == PutLock(me, Lost);
    }
  }

  /** A set lock stays while others go on. */
  lemma StillSet(h: seq<PodGroup>, h': seq<PodGroup>, op: string)
    requires HistoryOk(h') && 0 < |h| <= |h'| && h <= h' && h[|h| - 1].finalOp == Some(op)
    ensures h'[|h'| - 1].finalOp == Some(op)
  {
    assert Legal(h'[|h| - 1], h'[|h'| - 1]);
  }

  /**
   The lock call of a binder. It succeeds only while the lock is its own, and then no version
   of the PodGroup has timed out. When it fails it has taken the lock all the same exactly if
   the answer to one of its writes was lost; the retry then conflicts with it.
  */
  method LockPodGroupStatus(w: World, me: nat, op: string, listed: bool) returns (ok: bool)
    requires w.Valid() && ActorOf(w.now, me) == Idle
    modifies w
    ensures w.Valid() && old(w.states) <= w.states && old(w.steps) <= w.steps
    ensures ActorOf(w.now, me) == if ok then Locked(op) else Idle
    ensures ok ==> listed && w.now.history[|w.now.history| - 1].finalOp == Some(op)
    ensures !ok ==>
      || !listed || HeldByOther(w.now.history, op)
      || (SomeWriteFailed(w.steps, |old(w.steps)|, me) && GaveUp(w.steps, |old(w.steps)|, me))
    ensures !ok ==>
      && (WroteLock(w.states, w.steps, |old(w.steps)|, me) <==> Answered(w.steps, |old(w.steps)|, me, Lost))
      && (WroteLock(w.states, w.steps, |old(w.steps)|, me) ==> w.now.history[|w.now.history| - 1].finalOp == Some(op))
    ensures ok && op != CONTROLLER ==> forall v :: 0 <= v < |w.now.history| ==> w.now.history[v].phase != Timeout
  {
    ok := false;
    OwnWrites(w.states, w.steps, |w.steps|, me);
    if !listed {
      return;
    }
    ghost var from := |w.steps|;
    w.Interleave(me);
    var version := w.Read();
    var pg := w.now.history[version];
    w.Take(Lock(me, version, op));
    if FinalOp(pg) == "" {
      if CanPopulate(pg, op) {
        ok := TryLock(w, me, op, version, from);
      }
    } else {
      ok := FinalOp(pg) == op;
    }
    OwnWrites(w.states, w.steps, from, me);
    if ok {
      assert ActorOk(w.now.history, w.now.actors[me]);
      if op != CONTROLLER {
        forall v | 0 <= v < |w.now.history|
          ensures w.now.history[v].phase != Timeout
        {
          LockedNeverTimesOut(w.states, w.steps, |w.steps|, |w.steps|, me, v);
        }
      }
    }
  }

  /** No write of the lock yet. */
  ghost predicate NoneAnswered(steps: seq<Step>, from: nat, me: nat) {
    forall i :: from <= i < |steps| ==> !(steps[i].PutLock? && steps[i].a == me)
  }

  /** The lock is set if an answer was lost. */
  ghost predicate LostIsSet(steps: seq<Step>, from: nat, me: nat, h: seq<PodGroup>, op: string) {
    Answered(steps, from, me, Lost) ==> |h| > 0 && h[|h| - 1].finalOp == Some(op)
  }

  lemma LostStaysSet(
    steps: seq<Step>, steps': seq<Step>, from: nat, me: nat, h: seq<PodGroup>, h': seq<PodGroup>, op: string)
    requires LostIsSet(steps, from, me, h, op) && HistoryOk(h') && h <= h'
    requires Answered(steps', from, me, Lost) ==>
      Answered(steps, from, me, Lost) || (|h'| > 0 && h'[|h'| - 1].finalOp == Some(op))
    ensures LostIsSet(steps', from, me, h', op)
  {
    if Answered(steps, from, me, Lost) {
      StillSet(h, h', op);
    }
  }

  /** One write of the lock, after whatever the others did meanwhile. */
  method RequestLock(w: World, me: nat, op: string, version: nat, attempts: nat, ghost from: nat) returns (reply: Reply)
    requires w.Valid() && ActorOf(w.now, me) == Locking(version, op, attempts) && from <= |w.steps|
    requires LostIsSet(w.steps, from, me, w.now.history, op)
    modifies w
    ensures w.Valid() && old(w.states) <= w.states && old(w.steps) <= w.steps && old(w.now.history) <= w.now.history
    ensures ActorOf(w.now, me) ==
      if reply == Applied then Locked(op)
      else if reply == Conflict || attempts <= 1 then Idle else Locking(version, op, attempts - 1)
    ensures LostIsSet(w.steps, from, me, w.now.history, op)
    ensures SomeWriteFailed(w.steps, from, me) <==> old(SomeWriteFailed(w.steps, from, me)) || reply != Applied
    ensures Requests(w.steps, from, me) == old(Requests(w.steps, from, me)) + 1
    ensures reply == Conflict ==> Answered(w.steps, from, me, Conflict)
    ensures Answered(w.steps, from, me, Applied) <==> old(Answered(w.steps, from, me, Applied)) || reply == Applied
  {
    hide IsRun, Inv, SomeWriteFailed, Answered, LostIsSet, HistoryOk, Requests;
    ghost var before, h := w.steps, w.now.history;
    w.Interleave(me);
    InvHistory(w.now);
    OthersAnswer(before, w.steps, from, me);
    OthersRequest(before, w.steps, from, me);
    LostStaysSet(before, w.steps, from, me, h, w.now.history, op);
    reply := w.Outcome(version);
    before, h := w.steps, w.now.history;
    w.Take(PutLock(me, reply));
    InvHistory(w.now);
    OneMoreAnswer(before, from, me, reply);
    OneMoreRequest(before, from, me, reply);
    LostStaysSet(before, w.steps, from, me, h, w.now.history, op);
  }

  lemma InvHistory(s: State)
    requires Inv(s)
    ensures HistoryOk(s.history) && |s.history| > 0
  {
  }

  /** The retried write of the lock, from one copy of the object. */
  method TryLock(w: World, me: nat, op: string, version: nat, ghost from: nat) returns (ok: bool)
    requires w.Valid() && ActorOf(w.now, me) == Locking(version, op, MAX_RETRY_ATTEMPTS)
    requires from <= |w.steps| && NoneAnswered(w.steps, from, me)
    modifies w
    ensures w.Valid() && old(w.states) <= w.states && old(w.steps) <= w.steps && old(w.now.history) <= w.now.history
    ensures ActorOf(w.now, me) == if ok then Locked(op) else Idle
    ensures !ok ==> SomeWriteFailed(w.steps, from, me) && !Answered(w.steps, from, me, Applied)
    ensures !ok ==> GaveUp(w.steps, from, me)
    ensures Answered(w.steps, from, me, Lost) ==> w.now.history[|w.now.history| - 1].finalOp == Some(op)
  {
    ok := false;
    NoRequests(w.steps, from, me);
    var attempts, done := MAX_RETRY_ATTEMPTS, false;
    while attempts > 0 && !done
      invariant w.Valid() && old(w.states) <= w.states && old(w.steps) <= w.steps && old(w.now.history) <= w.now.history
      invariant 0 <= attempts <= MAX_RETRY_ATTEMPTS && (ok ==> done)
      invariant ActorOf(w.now, me) ==
        if ok then Locked(op) else if done || attempts == 0 then Idle else Locking(version, op, attempts)
      invariant !ok && (done || attempts < MAX_RETRY_ATTEMPTS) ==> SomeWriteFailed(w.steps, from, me)
      invariant !ok ==> !Answered(w.steps, from, me, Applied)
      invariant !done ==> Requests(w.steps, from, me) == 3 - attempts
      invariant !ok && done ==> Answered(w.steps, from, me, Conflict)
      invariant LostIsSet(w.steps, from, me, w.now.history, op)
      decreases attempts, !done
    {
      var reply := RequestLock(w, me, op, version, attempts, from);
      if reply == Applied {
        ok, done := true, true;
      } else if reply == Conflict {
        done := true;
      } else {
        attempts := attempts - 1;
      }
    }
  }

  lemma OthersAnswer(before: seq<Step>, steps: seq<Step>, from: nat, me: nat)
    requires before <= steps && forall i :: |before| <= i < |steps| ==> !IsBy(steps[i], me)
    ensures forall reply :: Answered(steps, from, me, reply) <==> Answered(before, from, me, reply)
    ensures SomeWriteFailed(before, from, me) <==> SomeWriteFailed(steps, from, me)
  {
    forall reply
      ensures Answered(steps, from, me, reply) <==> Answered(before, from, me, reply)
    {
      if i :| from <= i < |steps| && steps[i] == PutLock(me, reply) {
        assert IsBy(steps[i], me);
        assert before[i] == PutLock(me, reply);
      }
      if i :| from <= i < |before| && before[i] == PutLock(me, reply) {
        assert steps[i] == PutLock(me, reply);
      }
    }
    if i :| from <= i < |before| && before[i].PutLock? && before[i].a == me && before[i].reply != Applied {
      assert steps[i] == before[i];
    }
    if i :| from <= i < |steps| && steps[i].PutLock? && steps[i].a == me && steps[i].reply != Applied {
      assert IsBy(steps[i], me);
      assert before[i] == steps[i];
    }
  }

  lemma OneMoreAnswer(before: seq<Step>, from: nat, me: nat, reply: Reply)
    requires from <= |before|
    ensures
      var steps := before + [PutLock(me, reply)];
      && (forall r :: Answered(steps, from, me, r) <==> Answered(before, from, me, r) || r == reply)
      && (SomeWriteFailed(steps, from, me) <==> SomeWriteFailed(before, from, me) || reply != Applied)
  {
    var steps := before + [PutLock(me, reply)];
    assert steps[|before|] == PutLock(me, reply);
    assert forall i :: 0 <= i < |before| ==> steps[i] == before[i];
  }

  // ---- the controller

  datatype Pod = Pod(scheduler: string, bound: bool, started: bool)

  /** The pods of a partition; the empty name stands for all of them. */
  function Counted(pods: seq<Pod>, scheduler: string): set<nat> {
    set i: nat | i < |pods| && (scheduler == "" || pods[i].scheduler == scheduler)
  }

  function Bound(pods: seq<Pod>, scheduler: string): set<nat> {
    set i | i in Counted(pods, scheduler) && pods[i].bound
  }

  /** Some pod of the partition is or was running. */
  predicate Started(pods: seq<Pod>, scheduler: string) {
    exists i :: i in Counted(pods, scheduler) && pods[i].started
  }

  /** What the pods of a partition say about the PodGroup. */
  ghost function MsgFor(pods: seq<Pod>, scheduler: string, minMember: int): Msg {
    var enough := |Counted(pods, scheduler)| >= minMember;
    if Started(pods, scheduler) || (enough && |Bound(pods, scheduler)| >= minMember) then ScheduledSatisfied
    else if enough then ScheduledUnsatisfied
    else CreatedUnsatisfied
  }

  lemma CountsGrow(pods: seq<Pod>, scheduler: string, n: nat)
    requires n < |pods|
    ensures
      var p, q := pods[..n], pods[..n + 1];
      var mine := scheduler == "" || pods[n].scheduler == scheduler;
      && Counted(q, scheduler) == Counted(p, scheduler) + (if mine then {n} else {})
      && Bound(q, scheduler) == Bound(p, scheduler) + (if mine && pods[n].bound then {n} else {})
      && (Started(q, scheduler) <==> Started(p, scheduler) || (mine && pods[n].started))
  {
    var p, q := pods[..n], pods[..n + 1];
    assert forall i :: i in Counted(p, scheduler) ==> i in Counted(q, scheduler) && q[i] == p[i];
    assert forall i :: i in Counted(q, scheduler) && i != n ==> i in Counted(p, scheduler) && q[i] == p[i];
  }

  /**
   Counts the pods of the partition: scheduled when enough are bound or one already runs,
   otherwise by whether enough exist.
  */
  method Analyze(pods: seq<Pod>, scheduler: string, minMember: int) returns (m: Msg)
    ensures m == ScheduledSatisfied <==>
      Started(pods, scheduler) || (|Counted(pods, scheduler)| >= minMember && |Bound(pods, scheduler)| >= minMember)
    ensures m == CreatedUnsatisfied <==> !Started(pods, scheduler) && |Counted(pods, scheduler)| < minMember
  {
    var created, scheduled, started := 0, 0, false;
    for i := 0 to |pods|
      invariant created == |Counted(pods[..i], scheduler)|
      invariant scheduled == |Bound(pods[..i], scheduler)|
      invariant started <==> Started(pods[..i], scheduler)
    {
      CountsGrow(pods, scheduler, i);
      if scheduler == "" || pods[i].scheduler == scheduler {
        created := created + 1;
        if pods[i].bound {
          scheduled := scheduled + 1;
        }
        if pods[i].started {
          started := true;
        }
      }
    }
    assert pods[..|pods|] == pods;
    m :=
      if started then ScheduledSatisfied
      else if created < minMember then CreatedUnsatisfied
      else if scheduled < minMember then ScheduledUnsatisfied
      else ScheduledSatisfied;
  }

  /** The phase the pods call for when nothing has timed out, given the phase of the copy that was read. */
  ghost predicate CallsFor(pods: seq<Pod>, scheduler: string, minMember: int, phase: Phase, next: Phase) {
    var enough := |Counted(pods, scheduler)| >= minMember;
    var scheduled := Started(pods, scheduler) || (enough && |Bound(pods, scheduler)| >= minMember);
    if phase == Unset || phase == Pending || phase == PreScheduling then
      && (next == Scheduled <==> scheduled)
      && (next == PreScheduling <==> enough && !scheduled)
      && (next == Pending <==> !enough && !scheduled)
    else if phase == Running || phase == Finished || phase == Failed then next == Scheduled
    else next == phase
  }

  /** What a sync decides on: what the pods call for, or a timeout if that is not final and the lock can be had. */
  ghost predicate Decides(
    pods: seq<Pod>, scheduler: string, minMember: int, timedOut: bool, read: PodGroup, next: Phase)
  {
    exists called :: CallsFor(pods, scheduler, minMember, read.phase, called) &&
      next == if called != Scheduled && called != Timeout && timedOut &&
                 (read.finalOp == None || read.finalOp == Some(CONTROLLER))
              then Timeout else called
  }

  /** A decision is about one phase only. */
  lemma DecidesOne(
    pods: seq<Pod>, scheduler: string, minMember: int, timedOut: bool, read: PodGroup, a: Phase, b: Phase)
    requires Decides(pods, scheduler, minMember, timedOut, read, a)
    requires Decides(pods, scheduler, minMember, timedOut, read, b)
    ensures a == b
  {
  }

  lemma NextIsCalledFor(pods: seq<Pod>, scheduler: string, minMember: int, phase: Phase)
    ensures CallsFor(pods, scheduler, minMember, phase, NextPhase(phase, MsgFor(pods, scheduler, minMember)))
  {
    hide Counted, Bound, Started;
  }

  /** Every request of the caller was applied. */
  ghost predicate AllApplied(steps: seq<Step>, from: nat, me: nat) {
    forall i | from <= i < |steps| && IsBy(steps[i], me) ::
      steps[i].PutAnnotation? || steps[i].PutStatus? ==> steps[i].reply == Applied
  }

  /** The status writes of the caller that were stored, all with this phase. */
  ghost predicate StoresOnly(states: seq<State>, steps: seq<Step>, from: nat, me: nat, phase: Phase)
    requires |states| == |steps| + 1
  {
    forall i | from <= i < |steps| && steps[i].PutStatus? && steps[i].a == me && Writes(steps[i].reply) ::
      |states[i].history| > 0 &&
      states[i + 1].history == states[i].history + [states[i].history[|states[i].history| - 1].(phase := phase)]
  }

  /** Some status write of the caller was applied. */
  ghost predicate Stored(steps: seq<Step>, from: nat, me: nat) {
    exists i :: from <= i < |steps| && steps[i] == PutStatus(me, Applied)
  }

  /** The caller sent no write. */
  ghost predicate NoWrites(steps: seq<Step>, from: nat, me: nat) {
    forall i | from <= i < |steps| && IsBy(steps[i], me) :: !steps[i].PutAnnotation? && !steps[i].PutStatus?
  }

  /**
   One sync of a controller, on a copy that may be old. A copy in a final phase is left alone.
   Otherwise exactly the phase that the pods and the clock decide on is stored, if it differs and
   every request is applied; and the sync is over for good only when that phase is final.
  */
  method SyncHandler(w: World, me: nat, pods: seq<Pod>, scheduler: string, minMember: int, timedOut: bool)
    returns (again: bool, ghost version: nat, ghost next: Phase)
    requires w.Valid() && ActorOf(w.now, me) == Idle
    modifies w
    ensures w.Valid() && old(w.states) <= w.states && old(w.steps) <= w.steps
    ensures ActorOf(w.now, me) == Idle
    ensures !again ==> FinalState(w.now.history[|w.now.history| - 1].phase)
    ensures Sync(me, version, MsgFor(pods, scheduler, minMember), timedOut) in w.steps[|old(w.steps)|..]
    ensures version < |w.now.history| && Decides(pods, scheduler, minMember, timedOut, w.now.history[version], next)
    ensures
      var from, read := |old(w.steps)|, w.now.history[version];
      if read.phase == Scheduled || read.phase == Timeout then !again && NoWrites(w.steps, from, me)
      else
        && (again <==> !((next == Scheduled || next == Timeout) && AllApplied(w.steps, from, me)))
        && StoresOnly(w.states, w.steps, from, me, next)
        && (next == read.phase ==> NoWrites(w.steps, from, me))
        && (next != read.phase && AllApplied(w.steps, from, me) ==> Stored(w.steps, from, me))
  {
    hide IsRun, Inv, Decides, AllApplied, StoresOnly, NoWrites, Stored, Counted, Bound, Started, NextPhase;
    ghost var from, s0 := |w.steps|, w.steps;
    w.Interleave(me);
    ghost var others := w.steps;
    var at := w.Read();
    version := at;
    var pg := w.now.history[at];
    var m := Analyze(pods, scheduler, minMember);
    MsgIs(pods, scheduler, minMember, m);
    w.Take(Sync(me, at, m, timedOut));
    ghost var taken, h := w.steps, w.now.history;
    SyncOnly(s0, others, taken, me, at, m, timedOut);
    PlanDecides(pods, scheduler, minMember, timedOut, pg);
    next := Plan(pg, m, timedOut).phase;
    if FinalState(pg.phase) {
      FinalAtOnce(w.now, at);
      return false, at, next;
    }
    var phase, finalOp := NextPhase(pg.phase, m), pg.finalOp;
    if !FinalState(phase) && timedOut && CanPopulate(pg, CONTROLLER) {
      phase, finalOp := Timeout, Some(CONTROLLER);
    }
    var updated := UpdatePodGroup(w, me, at, pg, PodGroup(finalOp, phase));
    assert w.now.history[at] == h[at];
    RunLengths(w.states, w.steps);
    NothingBefore(taken, w.states, w.steps, from, me, phase);
    SyncStays(taken, w.steps, from, Sync(me, at, m, timedOut));
    again := !(updated && FinalState(phase));
  }

  lemma MsgIs(pods: seq<Pod>, scheduler: string, minMember: int, m: Msg)
    requires m == ScheduledSatisfied <==>
      Started(pods, scheduler) || (|Counted(pods, scheduler)| >= minMember && |Bound(pods, scheduler)| >= minMember)
    requires m == CreatedUnsatisfied <==> !Started(pods, scheduler) && |Counted(pods, scheduler)| < minMember
    ensures m == MsgFor(pods, scheduler, minMember)
  {
    hide Started, Counted, Bound;
  }

  /** The plan of a sync is what its pods and the clock decide on. */
  lemma PlanDecides(pods: seq<Pod>, scheduler: string, minMember: int, timedOut: bool, pg: PodGroup)
    ensures Decides(pods, scheduler, minMember, timedOut, pg, Plan(pg, MsgFor(pods, scheduler, minMember), timedOut).phase)
  {
    hide CallsFor, NextPhase;
    NextIsCalledFor(pods, scheduler, minMember, pg.phase);
  }

  /** Others' steps, and the sync. */
  lemma SyncOnly(s0: seq<Step>, others: seq<Step>, taken: seq<Step>, me: nat, at: nat, m: Msg, timedOut: bool)
    requires s0 <= others && (forall i :: |s0| <= i < |others| ==> !IsBy(others[i], me))
    requires taken == others + [Sync(me, at, m, timedOut)]
    ensures NoWrites(taken, |s0|, me) && Sync(me, at, m, timedOut) in taken[|s0|..]
  {
    assert taken[|others|] == Sync(me, at, m, timedOut);
    assert forall i :: |s0| <= i < |others| ==> taken[i] == others[i];
    assert taken[|s0|..][|others| - |s0|] == taken[|others|];
  }

  lemma SyncStays(taken: seq<Step>, steps: seq<Step>, from: nat, step: Step)
    requires from <= |taken| && taken <= steps && step in taken[from..]
    ensures step in steps[from..]
  {
    var i :| 0 <= i < |taken| - from && taken[from..][i] == step;
    assert steps[from..][i] == step;
  }

  lemma FinalAtOnce(s: State, v: nat)
    requires Inv(s) && v < |s.history| && FinalState(s.history[v].phase)
    ensures FinalState(s.history[|s.history| - 1].phase)
  {
    assert Legal(s.history[v], s.history[|s.history| - 1]);
  }

  /** Up to the sync step the caller has written nothing. */
  lemma NothingBefore(taken: seq<Step>, states: seq<State>, steps: seq<Step>, from: nat, me: nat, phase: Phase)
    requires |states| == |steps| + 1 && from <= |taken| && taken <= steps && NoWrites(taken, from, me)
    ensures AllApplied(steps, from, me) <==> AllApplied(steps, |taken|, me)
    ensures StoresOnly(states, steps, |taken|, me, phase) ==> StoresOnly(states, steps, from, me, phase)
    ensures Stored(steps, |taken|, me) ==> Stored(steps, from, me)
    ensures NoWrites(steps, |taken|, me) ==> NoWrites(steps, from, me)
  {
    assert forall i :: 0 <= i < |taken| ==> steps[i] == taken[i];
  }

  /**
   Writes what changed, the annotation first; false when a request failed. The phase stored, if
   any, is the new one, and it is when it differs and nothing fails.
  */
  method UpdatePodGroup(w: World, me: nat, version: nat, before: PodGroup, after: PodGroup) returns (ok: bool)
    requires w.Valid() && version < |w.now.history| && before == w.now.history[version]
    requires !FinalState(before.phase)
    requires ActorOf(w.now, me) ==
      if after.finalOp != before.finalOp then Annotating(version, after)
      else if after.phase != before.phase then Updating(version, after.phase) else Idle
    modifies w
    ensures w.Valid() && old(w.states) <= w.states && old(w.steps) <= w.steps && old(w.now.history) <= w.now.history
    ensures ActorOf(w.now, me) == Idle
    ensures ok && FinalState(after.phase) ==> w.now.history[|w.now.history| - 1].phase == after.phase
    ensures ok <==> AllApplied(w.steps, |old(w.steps)|, me)
    ensures StoresOnly(w.states, w.steps, |old(w.steps)|, me, after.phase)
    ensures after == before ==> NoWrites(w.steps, |old(w.steps)|, me)
    ensures ok && after.phase != before.phase ==> Stored(w.steps, |old(w.steps)|, me)
  {
    hide IsRun, Inv, AllApplied, StoresOnly, NoWrites, Stored;
    ghost var s0 := w.steps;
    var base := version;
    RunLengths(w.states, w.steps);
    NothingSent(w.states, w.steps, me, after.phase);
    if after.finalOp != before.finalOp {
      w.Interleave(me);
      var reply := w.Outcome(base);
      ghost var others := w.steps;
      w.Take(PutAnnotation(me, reply));
      RunLengths(w.states, w.steps);
      AnnotationSent(s0, others, w.states, w.steps, me, reply, after.phase);
      if reply != Applied {
        return false;
      }
      base := |w.now.history| - 1;
    }
    if before.phase == after.phase {
      return true;
    }
    ok := SendPhase(w, me, base, after.phase, s0);
  }

  /** The status request, after whatever the others did meanwhile. */
  method SendPhase(w: World, me: nat, base: nat, phase: Phase, ghost s0: seq<Step>) returns (ok: bool)
    requires w.Valid() && ActorOf(w.now, me) == Updating(base, phase) && s0 <= w.steps
    requires AllApplied(w.steps, |s0|, me)
    requires forall i :: |s0| <= i < |w.steps| ==> !(w.steps[i].PutStatus? && w.steps[i].a == me)
    modifies w
    ensures w.Valid() && old(w.states) <= w.states && old(w.steps) <= w.steps && old(w.now.history) <= w.now.history
    ensures ActorOf(w.now, me) == Idle
    ensures ok ==> w.now.history[|w.now.history| - 1].phase == phase
    ensures ok <==> AllApplied(w.steps, |s0|, me)
    ensures StoresOnly(w.states, w.steps, |s0|, me, phase)
    ensures ok ==> Stored(w.steps, |s0|, me)
  {
    hide IsRun, Inv, AllApplied, StoresOnly, Stored;
    ghost var s1 := w.steps;
    w.Interleave(me);
    var reply := w.Outcome(base);
    ghost var others, before := w.steps, w.states;
    LatestState(w);
    w.Take(PutStatus(me, reply));
    RunLengths(w.states, w.steps);
    PhaseSent(s0, s1, others, before, w.states, w.steps, me, reply, phase);
    ok := reply == Applied;
  }

  lemma RunLengths(states: seq<State>, steps: seq<Step>)
    requires IsRun(states, steps)
    ensures |states| == |steps| + 1
  {
  }

  lemma LatestState(w: World)
    requires w.Valid()
    ensures |w.states| == |w.steps| + 1 && w.states[|w.steps|] == w.now && |w.now.history| > 0
  {
  }

  lemma NothingSent(states: seq<State>, steps: seq<Step>, me: nat, phase: Phase)
    requires |states| == |steps| + 1
    ensures AllApplied(steps, |steps|, me) && NoWrites(steps, |steps|, me) && StoresOnly(states, steps, |steps|, me, phase)
  {
  }

  /** Others' steps, and then the annotation. */
  lemma AnnotationSent(
    s0: seq<Step>, others: seq<Step>, states: seq<State>, steps: seq<Step>, me: nat, reply: Reply, phase: Phase)
    requires s0 <= others && (forall i :: |s0| <= i < |others| ==> !IsBy(others[i], me))
    requires steps == others + [PutAnnotation(me, reply)] && |states| == |steps| + 1
    ensures AllApplied(steps, |s0|, me) <==> reply == Applied
    ensures StoresOnly(states, steps, |s0|, me, phase)
  {
    assert steps[|others|] == PutAnnotation(me, reply);
    assert forall i :: |s0| <= i < |others| ==> steps[i] == others[i] && !IsBy(steps[i], me);
  }

  /** Then others' steps again, and the status. */
  lemma PhaseSent(
    s0: seq<Step>, s1: seq<Step>, others: seq<Step>, before: seq<State>, states: seq<State>, steps: seq<Step>,
    me: nat, reply: Reply, phase: Phase)
    requires s0 <= s1 <= others && (forall i :: |s1| <= i < |others| ==> !IsBy(others[i], me))
    requires steps == others + [PutStatus(me, reply)] && |states| == |steps| + 1
    requires AllApplied(s1, |s0|, me) && forall i :: |s0| <= i < |s1| ==> !(s1[i].PutStatus? && s1[i].a == me)
    requires |before| == |others| + 1 && before <= states && |before[|others|].history| > 0
    requires Writes(reply) ==>
      var h := before[|others|].history;
      states[|steps|].history == h + [h[|h| - 1].(phase := phase)]
    ensures AllApplied(steps, |s0|, me) <==> reply == Applied
    ensures StoresOnly(states, steps, |s0|, me, phase)
    ensures reply == Applied ==> Stored(steps, |s0|, me)
  {
    assert steps[|others|] == PutStatus(me, reply);
    assert forall i :: 0 <= i < |s1| ==> steps[i] == s1[i];
    assert forall i :: |s1| <= i < |others| ==> steps[i] == others[i] && !IsBy(steps[i], me);
    assert states[|others|] == before[|others|];
  }
}
