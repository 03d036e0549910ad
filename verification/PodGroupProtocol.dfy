/**
 The final-operation lock of a PodGroup.

 Binders and any number of PodGroup controllers race on one API object. Every read may be
 arbitrarily stale, every write is a compare-and-swap on the version that was read, the
 annotation and the status are written by separate requests, and a reply may be lost after
 its write was applied. In every interleaving the lock is written once, a final phase stays,
 and a PodGroup whose lock a binder obtained never times out.
*/
module PodGroupProtocol {

  import opened BinderTypes

  datatype Phase = Unset | Pending | PreScheduling | Scheduled | Running | Timeout | Finished | Failed | Unknown

  datatype PodGroup = PodGroup(finalOp: Option<string>, phase: Phase)

  const CONTROLLER := "pg-controller"
  const MAX_RETRY_ATTEMPTS := 3

  predicate FinalState(p: Phase) {
    p == Scheduled || p == Timeout
  }

  function FinalOp(pg: PodGroup): string {
    match pg.finalOp
    case Some(op) => op
    case None => ""
  }

  /** Whether the lock can be taken on this copy: it is free or already ours. */
  predicate CanPopulate(pg: PodGroup, op: string) {
    pg.finalOp == None || pg.finalOp == Some(op)
  }

  datatype Msg = CreatedUnsatisfied | ScheduledUnsatisfied | ScheduledSatisfied

  /** The phase a controller moves to; the retired phases count as scheduled. */
  function NextPhase(phase: Phase, m: Msg): Phase {
    match phase
    case Unset | Pending =>
      if m == ScheduledUnsatisfied then PreScheduling else if m == ScheduledSatisfied then Scheduled else Pending
    case PreScheduling =>
      if m == CreatedUnsatisfied then Pending else if m == ScheduledSatisfied then Scheduled else PreScheduling
    case Running | Finished | Failed => Scheduled
    case _ => phase
  }

  /** What a controller wants the object to become; it locks before it lets a PodGroup time out. */
  function Plan(pg: PodGroup, m: Msg, timedOut: bool): PodGroup {
    var next := NextPhase(pg.phase, m);
    if !FinalState(next) && timedOut && CanPopulate(pg, CONTROLLER)
    then PodGroup(Some(CONTROLLER), Timeout)
    else PodGroup(pg.finalOp, next)
  }

  // ---- the protocol

  /** Where an actor is between two requests, with the version its copy was read at. */
  datatype Actor =
    | Idle
    | Annotating(base: nat, pg: PodGroup)
    | Updating(base: nat, phase: Phase)
    | Locking(base: nat, op: string, left: nat)
    | Locked(op: string)

  /** `history[v]` is the object at version `v`; the last one is current. */
  datatype State = State(history: seq<PodGroup>, actors: map<nat, Actor>)

  function ActorOf(s: State, a: nat): Actor {
    if a in s.actors then s.actors[a] else Idle
  }

  /** The outcome of a write as its caller sees it; a lost reply was applied all the same. */
  datatype Reply = Applied | Lost | Conflict | Unavailable

  datatype Step =
    | Sync(a: nat, version: nat, m: Msg, timedOut: bool)
    | PutAnnotation(a: nat, reply: Reply)
    | PutStatus(a: nat, reply: Reply)
    | Lock(a: nat, version: nat, op: string)
    | PutLock(a: nat, reply: Reply)
    | Release(a: nat)
    | Restart(a: nat)
    | External

  predicate IsBy(step: Step, a: nat) {
    step != External && step.a == a
  }

  predicate Current(s: State, version: nat) {
    version + 1 == |s.history|
  }

  predicate Writes(reply: Reply) {
    reply == Applied || reply == Lost
  }

  predicate Enabled(s: State, step: Step) {
    match step
    case Sync(a, version, _, _) => ActorOf(s, a) == Idle && version < |s.history|
    case PutAnnotation(a, reply) =>
      ActorOf(s, a).Annotating? && (Writes(reply) ==> Current(s, ActorOf(s, a).base))
    case PutStatus(a, reply) =>
      ActorOf(s, a).Updating? && (Writes(reply) ==> Current(s, ActorOf(s, a).base))
    case Lock(a, version, _) => ActorOf(s, a) == Idle && version < |s.history|
    case PutLock(a, reply) =>
      ActorOf(s, a).Locking? && (Writes(reply) ==> Current(s, ActorOf(s, a).base))
    case Release(a) => ActorOf(s, a).Locked?
    case Restart(_) => true
    case External => true
  }

  /** A sync: quick exit on a final phase, else write what changed, the annotation first. */
  function AfterSync(pg: PodGroup, version: nat, m: Msg, timedOut: bool): Actor {
    var next := Plan(pg, m, timedOut);
    if FinalState(pg.phase) then Idle
    else if next.finalOp != pg.finalOp then Annotating(version, next)
    else if next.phase != pg.phase then Updating(version, next.phase)
    else Idle
  }

  /** A lock attempt: ours already, free to try, or somebody else's. */
  function AfterLock(pg: PodGroup, version: nat, op: string): Actor {
    if FinalOp(pg) == "" then
      if CanPopulate(pg, op) then Locking(version, op, MAX_RETRY_ATTEMPTS) else Idle
    else if FinalOp(pg) == op then Locked(op)
    else Idle
  }

  function Become(s: State, a: nat, actor: Actor): State {
    s.(actors := s.actors[a := actor])
  }

  function Store(s: State, reply: Reply, pg: PodGroup): State {
    if reply == Applied || reply == Lost then s.(history := s.history + [pg]) else s
  }

  /** The annotation request changes no status and the status request no annotation. */
  function Apply(s: State, step: Step): State
    requires |s.history| > 0
  {
    var latest := s.history[|s.history| - 1];
    match step
    case Sync(a, version, m, timedOut) =>
      if version < |s.history| then Become(s, a, AfterSync(s.history[version], version, m, timedOut)) else s
    case PutAnnotation(a, reply) =>
      (match ActorOf(s, a)
       case Annotating(_, next) =>
         Become(Store(s, reply, latest.(finalOp := next.finalOp)), a,
           if reply == Applied && next.phase != latest.phase then Updating(|s.history|, next.phase) else Idle)
       case _ => s)
    case PutStatus(a, reply) =>
      (match ActorOf(s, a)
       case Updating(_, phase) => Become(Store(s, reply, latest.(phase := phase)), a, Idle)
       case _ => s)
    case Lock(a, version, op) =>
      if version < |s.history| then Become(s, a, AfterLock(s.history[version], version, op)) else s
    case PutLock(a, reply) =>
      (match ActorOf(s, a)
       case Locking(base, op, left) =>
         Become(Store(s, reply, latest.(finalOp := Some(op))), a,
           if reply == Applied then Locked(op)
           else if reply == Conflict || left <= 1 then Idle
           else Locking(base, op, left - 1))
       case _ => s)
    case Release(a) => Become(s, a, Idle)
    case Restart(a) => Become(s, a, Idle)
    case External => s.(history := s.history + [latest])
  }

  // ---- the invariant

  /** What one version may become: the lock is written once, a final phase stays. */
  ghost predicate Legal(before: PodGroup, after: PodGroup) {
    && (before.finalOp.Some? ==> after.finalOp == before.finalOp)
    && (FinalState(before.phase) ==> after.phase == before.phase)
  }

  /** Only the holder of the controllers' lock lets a PodGroup time out. */
  ghost predicate TimeoutIsLocked(pg: PodGroup) {
    pg.phase == Timeout ==> pg.finalOp == Some(CONTROLLER)
  }

  ghost predicate HistoryOk(h: seq<PodGroup>) {
    && |h| > 0
    && (forall v :: 0 <= v < |h| ==> TimeoutIsLocked(h[v]))
    && (forall v, w :: 0 <= v <= w < |h| ==> Legal(h[v], h[w]))
  }

  ghost predicate ActorOk(h: seq<PodGroup>, actor: Actor) {
    match actor
    case Idle => true
    case Annotating(base, pg) =>
      base < |h| && !FinalState(h[base].phase) && h[base].finalOp == None && pg == PodGroup(Some(CONTROLLER), Timeout)
    case Updating(base, phase) =>
      base < |h| && !FinalState(h[base].phase) && (phase == Timeout ==> h[base].finalOp == Some(CONTROLLER))
    case Locking(base, op, _) => base < |h| && CanPopulate(h[base], op)
    case Locked(op) => |h| > 0 && h[|h| - 1].finalOp == Some(op)
  }

  ghost predicate Inv(s: State) {
    HistoryOk(s.history) && forall a :: a in s.actors ==> ActorOk(s.history, s.actors[a])
  }

  lemma LegalIsTransitive(x: PodGroup, y: PodGroup, z: PodGroup)
    requires Legal(x, y) && Legal(y, z)
    ensures Legal(x, z)
  {
  }

  lemma HistoryGrows(h: seq<PodGroup>, pg: PodGroup)
    requires HistoryOk(h) && Legal(h[|h| - 1], pg) && TimeoutIsLocked(pg)
    ensures HistoryOk(h + [pg])
  {
    var h' := h + [pg];
    forall v, w | 0 <= v <= w < |h'|
      ensures Legal(h'[v], h'[w])
    {
      if v < w == |h| {
        LegalIsTransitive(h[v], h[|h| - 1], pg);
      }
    }
  }

  lemma ActorStaysOk(h: seq<PodGroup>, pg: PodGroup, actor: Actor)
    requires HistoryOk(h) && Legal(h[|h| - 1], pg) && ActorOk(h, actor)
    ensures ActorOk(h + [pg], actor)
  {
  }

  lemma StepIsLegal(s: State, step: Step)
    requires Inv(s) && Enabled(s, step)
    ensures
      var h, h' := s.history, Apply(s, step).history;
      h' == h || (exists pg :: h' == h + [pg] && Legal(h[|h| - 1], pg) && TimeoutIsLocked(pg))
  {
    var h := s.history;
    var latest := h[|h| - 1];
    assert TimeoutIsLocked(latest);
    match step {
      case PutAnnotation(a, reply) =>
        assert ActorOk(h, ActorOf(s, a));
        assert Writes(reply) ==> Legal(latest, latest.(finalOp := ActorOf(s, a).pg.finalOp));
      case PutStatus(a, reply) =>
        assert ActorOk(h, ActorOf(s, a));
        assert Writes(reply) ==> Legal(latest, latest.(phase := ActorOf(s, a).phase));
      case PutLock(a, reply) =>
        assert ActorOk(h, ActorOf(s, a));
        assert Writes(reply) ==> Legal(latest, latest.(finalOp := Some(ActorOf(s, a).op)));
      case External =>
        assert Legal(latest, latest);
      case _ =>
    }
  }

  /** The actor that moved is where its copy and the reply put it. */
  lemma MoverOk(s: State, step: Step, a: nat)
    requires Inv(s) && Enabled(s, step) && HistoryOk(Apply(s, step).history)
    requires IsBy(step, a)
    ensures ActorOk(Apply(s, step).history, ActorOf(Apply(s, step), a))
  {
    assert a in s.actors ==> ActorOk(s.history, s.actors[a]);
    match step {
      case Lock(_, version, op) =>
        assert Legal(s.history[version], s.history[|s.history| - 1]);
      case _ =>
    }
  }

  lemma StepKeepsInv(s: State, step: Step)
    requires Inv(s) && Enabled(s, step)
    ensures Inv(Apply(s, step))
    ensures s.history <= Apply(s, step).history
  {
    StepIsLegal(s, step);
    var s' := Apply(s, step);
    var h, h' := s.history, s'.history;
    if h' != h {
      var pg :| h' == h + [pg] && Legal(h[|h| - 1], pg) && TimeoutIsLocked(pg);
      HistoryGrows(h, pg);
    }
    forall a | a in s'.actors
      ensures ActorOk(h', s'.actors[a])
    {
      if IsBy(step, a) {
        MoverOk(s, step, a);
      } else {
        assert a in s.actors && s'.actors[a] == s.actors[a];
        if h' != h {
          ActorStaysOk(h, h'[|h|], s.actors[a]);
        }
      }
    }
  }

  // ---- whole runs

  /** A PodGroup is created without a phase; nobody is at work on it yet. */
  ghost predicate Init(s: State) {
    |s.history| == 1 && s.history[0].phase == Unset && s.actors == map[]
  }

  ghost predicate Leads(s: State, step: Step, s': State) {
    |s.history| > 0 && Enabled(s, step) && s' == Apply(s, step)
  }

  ghost predicate IsRun(states: seq<State>, steps: seq<Step>) {
    && |states| == |steps| + 1
    && Init(states[0])
    && (forall k :: 0 <= k < |steps| ==> Leads(states[k], steps[k], states[k + 1]))
  }

  lemma {:induction false} RunKeepsInv(states: seq<State>, steps: seq<Step>, k: nat)
    requires IsRun(states, steps) && k < |states|
    ensures Inv(states[k])
  {
    if k > 0 {
      RunKeepsInv(states, steps, k - 1);
      assert Leads(states[k - 1], steps[k - 1], states[k - 1 + 1]);
      StepKeepsInv(states[k - 1], steps[k - 1]);
    }
  }

  lemma {:induction false} HistoryIsKept(states: seq<State>, steps: seq<Step>, j: nat, k: nat)
    requires IsRun(states, steps) && j <= k < |states|
    ensures states[j].history <= states[k].history
    decreases k
  {
    if j < k {
      HistoryIsKept(states, steps, j, k - 1);
      RunKeepsInv(states, steps, k - 1);
      assert Leads(states[k - 1], steps[k - 1], states[k - 1 + 1]);
      StepKeepsInv(states[k - 1], steps[k - 1]);
    }
  }

  /** The lock is written once: whoever reads it set, at any version, reads its final value. */
  lemma LockIsWrittenOnce(states: seq<State>, steps: seq<Step>, k: nat, v: nat, w: nat)
    requires IsRun(states, steps) && k < |states| && v <= w < |states[k].history|
    requires states[k].history[v].finalOp.Some?
    ensures states[k].history[w].finalOp == states[k].history[v].finalOp
  {
    RunKeepsInv(states, steps, k);
    assert Legal(states[k].history[v], states[k].history[w]);
  }

  /** A final phase is absorbing, whatever any controller does with however old a copy. */
  lemma FinalPhaseIsAbsorbing(states: seq<State>, steps: seq<Step>, k: nat, v: nat, w: nat)
    requires IsRun(states, steps) && k < |states| && v <= w < |states[k].history|
    requires FinalState(states[k].history[v].phase)
    ensures states[k].history[w].phase == states[k].history[v].phase
  {
    RunKeepsInv(states, steps, k);
    assert Legal(states[k].history[v], states[k].history[w]);
  }

  /**
   Once a lock attempt of somebody else than a controller succeeded, the PodGroup has not
   timed out and never will, at any version of any later state.
  */
  lemma LockedNeverTimesOut(states: seq<State>, steps: seq<Step>, j: nat, k: nat, a: nat, v: nat)
    requires IsRun(states, steps) && j <= k < |states| && v < |states[k].history|
    requires ActorOf(states[j], a).Locked? && ActorOf(states[j], a).op != CONTROLLER
    ensures states[k].history[v].phase != Timeout
  {
    RunKeepsInv(states, steps, j);
    RunKeepsInv(states, steps, k);
    HistoryIsKept(states, steps, j, k);
    var h := states[k].history;
    var last := |states[j].history| - 1;
    assert ActorOk(states[j].history, states[j].actors[a]);
    assert h[last] == states[j].history[last];
    assert TimeoutIsLocked(h[v]);
    assert v <= last ==> Legal(h[v], h[last]);
    assert last <= v ==> Legal(h[last], h[v]);
  }

  /** Conversely, after a timeout no binder ever obtains the lock, however stale its reads. */
  lemma TimedOutIsNeverLocked(states: seq<State>, steps: seq<Step>, j: nat, k: nat, a: nat, v: nat)
    requires IsRun(states, steps) && j <= k < |states| && v < |states[j].history|
    requires states[j].history[v].phase == Timeout
    ensures ActorOf(states[k], a).Locked? ==> ActorOf(states[k], a).op == CONTROLLER
  {
    HistoryIsKept(states, steps, j, k);
    if ActorOf(states[k], a).Locked? && ActorOf(states[k], a).op != CONTROLLER {
      LockedNeverTimesOut(states, steps, k, k, a, v);
      assert false;
    }
  }

  /** A failed lock call does not mean a free lock: the reply to the write that took it may be lost. */
  lemma FailedLockMayHold() returns (states: seq<State>, steps: seq<Step>)
    ensures IsRun(states, steps)
    ensures forall s :: s in states ==> !ActorOf(s, 1).Locked?
    ensures
      var last := states[|steps|];
      |last.history| > 0 && ActorOf(last, 1) == Idle && last.history[|last.history| - 1].finalOp == Some("binder")
  {
    var free, held := PodGroup(None, Unset), PodGroup(Some("binder"), Unset);
    steps := [Lock(1, 0, "binder"), PutLock(1, Lost), PutLock(1, Conflict)];
    states := [
      State([free], map[]),
      State([free], map[1 := Locking(0, "binder", 3)]),
      State([free, held], map[1 := Locking(0, "binder", 2)]),
      State([free, held], map[1 := Idle])];
  }

  // ---- where a phase comes from

  /** What a sync may decide on, by what it read and what its pods said; a final phase is left alone. */
  ghost predicate Earns(read: PodGroup, m: Msg, timedOut: bool, phase: Phase) {
    var early := read.phase == Unset || read.phase == Pending || read.phase == PreScheduling;
    var retired := read.phase == Running || read.phase == Finished || read.phase == Failed;
    var late := timedOut && (read.finalOp == None || read.finalOp == Some(CONTROLLER));
    && read.phase != Scheduled && read.phase != Timeout
    && match phase
       case Scheduled => retired || (early && m == ScheduledSatisfied)
       case Timeout => late && !retired && !(early && m == ScheduledSatisfied)
       case PreScheduling => early && m == ScheduledUnsatisfied && !late
       case Pending => early && m == CreatedUnsatisfied && !late
       case _ => phase == read.phase && !early && !retired && !late
  }

  /** A sync decides on what is earned, and nothing else is. */
  lemma PlanIsEarned(read: PodGroup, m: Msg, timedOut: bool, phase: Phase)
    requires !FinalState(read.phase)
    ensures Earns(read, m, timedOut, phase) <==> phase == Plan(read, m, timedOut).phase
  {
  }

  /** The sync that an actor between its requests comes from. */
  ghost predicate ComesFrom(states: seq<State>, steps: seq<Step>, i: nat, k: nat, a: nat, phase: Phase)
    requires |states| == |steps| + 1 && k <= |steps|
  {
    && i < k && steps[i].Sync? && steps[i].a == a && steps[i].version < |states[i].history|
    && Earns(states[i].history[steps[i].version], steps[i].m, steps[i].timedOut, phase)
    && (forall j :: i < j < k && IsBy(steps[j], a) ==> steps[j].PutAnnotation?)
  }

  function PhaseOf(actor: Actor): Option<Phase> {
    match actor
    case Annotating(_, pg) => Some(pg.phase)
    case Updating(_, phase) => Some(phase)
    case _ => None
  }

  lemma OwnStepFrom(s: State, step: Step, a: nat)
    requires |s.history| > 0 && Enabled(s, step) && IsBy(step, a) && PhaseOf(ActorOf(Apply(s, step), a)).Some?
    ensures step.Sync? || step.PutAnnotation?
    ensures step.Sync? ==>
      && step.version < |s.history|
      && Earns(s.history[step.version], step.m, step.timedOut, PhaseOf(ActorOf(Apply(s, step), a)).value)
    ensures step.PutAnnotation? ==> PhaseOf(ActorOf(s, a)) == PhaseOf(ActorOf(Apply(s, step), a))
  {
    hide Earns;
    if step.Sync? {
      var pg := s.history[step.version];
      PlanIsEarned(pg, step.m, step.timedOut, Plan(pg, step.m, step.timedOut).phase);
    }
  }

  lemma OthersStep(s: State, step: Step, a: nat)
    requires |s.history| > 0 && !IsBy(step, a)
    ensures ActorOf(Apply(s, step), a) == ActorOf(s, a)
  {
  }

  /** Whoever is about to write a phase earned it in a sync of its own. */
  lemma {:induction false} ActorsComeFromSyncs(states: seq<State>, steps: seq<Step>, k: nat, a: nat) returns (i: nat)
    requires IsRun(states, steps) && k < |states| && PhaseOf(ActorOf(states[k], a)).Some?
    ensures ComesFrom(states, steps, i, k, a, PhaseOf(ActorOf(states[k], a)).value)
  {
    hide Earns, Enabled, Apply;
    if k == 0 {
      assert false;
    }
    assert Leads(states[k - 1], steps[k - 1], states[k - 1 + 1]);
    if IsBy(steps[k - 1], a) {
      OwnStepFrom(states[k - 1], steps[k - 1], a);
      if steps[k - 1].Sync? {
        return k - 1;
      }
    } else {
      OthersStep(states[k - 1], steps[k - 1], a);
    }
    i := ActorsComeFromSyncs(states, steps, k - 1, a);
  }

  /** A step that changes the phase is a status write of an actor about to write just that phase. */
  lemma PhaseStep(s: State, step: Step)
    requires |s.history| > 0 && Enabled(s, step)
    ensures
      var h, h' := s.history, Apply(s, step).history;
      && |h| <= |h'| <= |h| + 1 && h <= h'
      && (|h'| > |h| && h'[|h|].phase != h[|h| - 1].phase ==>
            step.PutStatus? && PhaseOf(ActorOf(s, step.a)) == Some(h'[|h|].phase))
  {
  }

  /**
   Over every run: a version whose phase is new was written by a status request of an actor,
   whose sync had read a version and heard from its pods what earns that phase.
  */
  lemma {:induction false} PhaseIsEarned(states: seq<State>, steps: seq<Step>, k: nat, v: nat)
    returns (i: nat, j: nat)
    requires IsRun(states, steps) && k < |states| && 0 < v < |states[k].history|
    requires states[k].history[v].phase != states[k].history[v - 1].phase
    ensures i < j < k && |states[j].history| == v && steps[j].PutStatus?
    ensures states[j + 1].history <= states[k].history && |states[j + 1].history| == v + 1
    ensures ComesFrom(states, steps, i, j, steps[j].a, states[k].history[v].phase)
  {
    hide Earns, Enabled, Apply;
    if k == 0 {
      assert false;
    }
    assert Leads(states[k - 1], steps[k - 1], states[k - 1 + 1]);
    var h, h' := states[k - 1].history, states[k].history;
    PhaseStep(states[k - 1], steps[k - 1]);
    if v < |h| {
      i, j := PhaseIsEarned(states, steps, k - 1, v);
    } else {
      j := k - 1;
      i := ActorsComeFromSyncs(states, steps, j, steps[j].a);
    }
  }

  /** In particular a PodGroup is scheduled only when a sync found its pods scheduled, or a retired phase. */
  lemma ScheduledIsEarned(states: seq<State>, steps: seq<Step>, k: nat, v: nat)
    requires IsRun(states, steps) && k < |states| && 0 < v < |states[k].history|
    requires states[k].history[v].phase == Scheduled && states[k].history[v - 1].phase != Scheduled
    ensures exists i :: 0 <= i < k && FoundScheduled(states[i], steps[i])
  {
    var i, j := PhaseIsEarned(states, steps, k, v);
    hide IsRun;
    assert FoundScheduled(states[i], steps[i]);
  }

  /** A sync whose pods are scheduled, or that read a retired phase. */
  ghost predicate FoundScheduled(s: State, step: Step) {
    && step.Sync? && step.version < |s.history|
    && (var read := s.history[step.version].phase;
        step.m == ScheduledSatisfied || read == Running || read == Finished || read == Failed)
  }
}
