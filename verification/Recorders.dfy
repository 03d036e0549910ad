/**
 Many recorders at work on one movement. The server keeps a log of all requests, of which the
 stored writes are the versions of the movement; what a call does is stated over its own
 entries in that log.
*/
module Recorders {

  import opened BinderTypes
  import opened M = Movement

  const MAX_RETRY_ATTEMPTS := 20

  /** How a write is answered; an error may hide a write that was stored. */
  datatype Answer = Stored | Deleted | Error

  /** What the lister answers: a version that may be old, that there is none, or an error. */
  datatype Answered = Found(version: nat, m: Movement) | Missing | Broken

  datatype Request =
    | Get(who: nat, read: Answered)
    | Put(who: nat, task: TaskInfo, base: nat, m: Movement, answer: Answer, stored: bool)

  /** The pod was added in one place. */
  ghost predicate RecordsOne(m: Movement, m': Movement, key: string, node: NodeName, task: TaskInfo) {
    Recorded(m, m', key, node, task, Matched) || Recorded(m, m', key, node, task, Mismatched)
  }

  ghost predicate RecordsTask(m: Movement, m': Movement, task: TaskInfo) {
    exists key, node :: RecordsOne(m, m', key, node, task)
  }

  // ---- the log and the versions

  /** The versions that a log leaves: the first one, and one for every stored write. */
  ghost function Replay(first: Movement, log: seq<Request>): (h: seq<Movement>)
    ensures |h| > 0 && h[0] == first
  {
    if log == [] then [first]
    else
      var h, r := Replay(first, log[..|log| - 1]), log[|log| - 1];
      if r.Put? && r.stored then h + [r.m] else h
  }

  /**
   What a request may be, when the versions are `h`. A write is a recording of the version it
   was made from, and is stored only if that is still the latest one; whether the caller
   learns of it is another matter.
  */
  ghost predicate Legal(h: seq<Movement>, r: Request) {
    match r
    case Get(_, read) => read.Found? ==> read.version < |h| && h[read.version] == read.m
    case Put(_, task, base, m, answer, stored) =>
      && base < |h| && RecordsTask(h[base], m, task)
      && (stored ==> base + 1 == |h|)
      && (answer == Stored ==> stored) && (answer == Deleted ==> !stored)
  }

  ghost predicate LogOk(first: Movement, log: seq<Request>) {
    if log == [] then Bounded(first)
    else LogOk(first, log[..|log| - 1]) && Legal(Replay(first, log[..|log| - 1]), log[|log| - 1])
  }

  lemma Logged(first: Movement, log: seq<Request>, r: Request)
    requires LogOk(first, log) && Legal(Replay(first, log), r)
    ensures LogOk(first, log + [r])
    ensures Replay(first, log + [r]) == if r.Put? && r.stored then Replay(first, log) + [r.m] else Replay(first, log)
  {
    assert (log + [r])[..|log + [r]| - 1] == log;
  }

  lemma {:induction false} LoggedHistory(first: Movement, log: seq<Request>)
    requires LogOk(first, log)
    ensures IsHistory(Replay(first, log))
  {
    hide RecordsTask, Bounded;
    if log != [] {
      var h, r := Replay(first, log[..|log| - 1]), log[|log| - 1];
      LoggedHistory(first, log[..|log| - 1]);
      if r.Put? && r.stored {
        RecordingEvolves(h[r.base], r.m, r.task);
        var h' := Replay(first, log);
        assert forall v :: 0 <= v < |h| ==> h'[v] == h[v];
        assert h'[|h|] == r.m;
      }
    }
  }

  lemma RecordingEvolves(m: Movement, m': Movement, task: TaskInfo)
    requires RecordsTask(m, m', task)
    ensures Evolves(m, m')
  {
    hide Recorded;
    var key, node :| RecordsOne(m, m', key, node, task);
  }

  lemma {:induction false} LogPrefix(first: Movement, log: seq<Request>, i: nat)
    requires LogOk(first, log) && i <= |log|
    ensures LogOk(first, log[..i]) && Replay(first, log[..i]) <= Replay(first, log)
    ensures i < |log| ==> Legal(Replay(first, log[..i]), log[i])
  {
    if i == |log| {
      assert log[..i] == log;
    } else {
      var n := |log| - 1;
      assert log[..n][..i] == log[..i];
      LogPrefix(first, log[..n], i);
    }
  }

  /** The version that a stored write in the log became. */
  ghost function VersionOf(first: Movement, log: seq<Request>, i: nat): nat
    requires i <= |log|
  {
    |Replay(first, log[..i])|
  }

  ghost predicate IsStored(log: seq<Request>, i: nat) {
    i < |log| && log[i].Put? && log[i].stored
  }

  /** A stored write is a version of its own, made from the one before it. */
  lemma StoredIsVersion(first: Movement, log: seq<Request>, i: nat)
    requires LogOk(first, log) && IsStored(log, i)
    ensures
      var h, v := Replay(first, log), VersionOf(first, log, i);
      0 < v < |h| && h[v] == log[i].m && log[i].base == v - 1 && RecordsTask(h[v - 1], h[v], log[i].task)
  {
    LogPrefix(first, log, i);
    LogPrefix(first, log, i + 1);
    assert log[..i + 1][..i] == log[..i];
    assert Replay(first, log[..i + 1]) == Replay(first, log[..i]) + [log[i].m];
  }

  /** Later writes are later versions, so no two are the same one. */
  lemma StoredInOrder(first: Movement, log: seq<Request>, i: nat, j: nat)
    requires LogOk(first, log) && i < j && IsStored(log, i) && IsStored(log, j)
    ensures VersionOf(first, log, i) < VersionOf(first, log, j)
  {
    LogPrefix(first, log, j);
    assert log[..j][..i] == log[..i];
    assert IsStored(log[..j], i);
    StoredIsVersion(first, log[..j], i);
  }

  /** Every version but the first is a stored write. */
  lemma {:induction false} VersionIsStored(first: Movement, log: seq<Request>, v: nat) returns (i: nat)
    requires LogOk(first, log) && 0 < v < |Replay(first, log)|
    ensures IsStored(log, i) && VersionOf(first, log, i) == v
  {
    var n := |log| - 1;
    if v < |Replay(first, log[..n])| {
      i := VersionIsStored(first, log[..n], v);
      assert log[..n][..i] == log[..i];
    } else {
      i := n;
    }
  }

  // ---- how often a pod is recorded

  ghost function InSuggestions(s: seq<Suggestion>, task: TaskInfo): nat {
    if s == [] then 0 else InSuggestions(s[..|s| - 1], task) + multiset(s[|s| - 1].actual)[task]
  }

  /** How often a pod is recorded in a movement. */
  ghost function Times(m: Movement, task: TaskInfo): nat {
    if m == [] then 0
    else
      var o := m[|m| - 1];
      Times(m[..|m| - 1], task) + InSuggestions(o.suggestions, task) + multiset(o.mismatched)[task]
  }

  ghost function One(b: bool): nat {
    if b then 1 else 0
  }

  lemma {:induction false} SuggestionCounts(s: seq<Suggestion>, i: nat, added: TaskInfo, task: TaskInfo)
    requires i < |s|
    ensures InSuggestions(s[i := s[i].(actual := s[i].actual + [added])], task) ==
      InSuggestions(s, task) + One(added == task)
  {
    var s' := s[i := s[i].(actual := s[i].actual + [added])];
    var n := |s| - 1;
    if i == n {
      assert s'[..n] == s[..n];
      assert multiset(s[i].actual + [added]) == multiset(s[i].actual) + multiset{added};
    } else {
      SuggestionCounts(s[..n], i, added, task);
      assert s'[..n] == s[..n][i := s[i].(actual := s[i].actual + [added])];
    }
  }

  lemma OwnerCounts(o: Owner, o': Owner, node: NodeName, added: TaskInfo, task: TaskInfo, matched: bool)
    requires AddedTo(o, o', node, added, matched)
    ensures InSuggestions(o'.suggestions, task) + multiset(o'.mismatched)[task] ==
      InSuggestions(o.suggestions, task) + multiset(o.mismatched)[task] + One(added == task)
  {
    if matched {
      var i :| 0 <= i < |o.suggestions|
        && o' == o.(suggestions := o.suggestions[i := o.suggestions[i].(actual := o.suggestions[i].actual + [added])]);
      SuggestionCounts(o.suggestions, i, added, task);
    } else {
      assert multiset(o.mismatched + [added]) == multiset(o.mismatched) + multiset{added};
    }
  }

  lemma {:induction false} ReplacedCounts(m: Movement, m': Movement, i: nat, task: TaskInfo, more: nat)
    requires i < |m| == |m'| && (forall j :: 0 <= j < |m| && j != i ==> m'[j] == m[j])
    requires InSuggestions(m'[i].suggestions, task) + multiset(m'[i].mismatched)[task] ==
      InSuggestions(m[i].suggestions, task) + multiset(m[i].mismatched)[task] + more
    ensures Times(m', task) == Times(m, task) + more
  {
    var n := |m| - 1;
    if i == n {
      assert m'[..n] == m[..n];
    } else {
      ReplacedCounts(m[..n], m'[..n], i, task, more);
    }
  }

  /** A recording adds its pod once, and no other. */
  lemma RecordingCounts(m: Movement, m': Movement, added: TaskInfo, task: TaskInfo)
    requires RecordsTask(m, m', added)
    ensures Times(m', task) == Times(m, task) + One(added == task)
  {
    hide AddedTo, Times, InSuggestions;
    var key, node :| RecordsOne(m, m', key, node, added);
    var matched := Recorded(m, m', key, node, added, Matched);
    var i :| 0 <= i < |m| && |m'| == |m| && (forall j :: 0 <= j < |m| && j != i ==> m'[j] == m[j])
      && AddedTo(m[i], m'[i], node, added, matched);
    OwnerCounts(m[i], m'[i], node, added, task, matched);
    ReplacedCounts(m, m', i, task, One(added == task));
  }

  // ---- the entries of one call

  datatype Kind = Attempt | Failure | Storing | Loss | Success

  /** An entry of a call: a read begins an attempt, a broken read or an answered error fails it. */
  ghost predicate Is(r: Request, me: nat, kind: Kind) {
    && r.who == me
    && match kind
       case Attempt => r.Get?
       case Failure => (r.Get? && r.read.Broken?) || (r.Put? && r.answer == Error)
       case Storing => r.Put? && r.stored
       case Loss => r.Put? && r.stored && r.answer == Error
       case Success => r.Put? && r.answer == Stored
  }

  ghost function Tally(log: seq<Request>, me: nat, kind: Kind): nat {
    if log == [] then 0 else Tally(log[..|log| - 1], me, kind) + One(Is(log[|log| - 1], me, kind))
  }

  /** How many stored writes recorded a pod, whoever made them. */
  ghost function StoredFor(log: seq<Request>, task: TaskInfo): nat {
    if log == [] then 0
    else
      var r := log[|log| - 1];
      StoredFor(log[..|log| - 1], task) + One(r.Put? && r.stored && r.task == task)
  }

  /** The entry that ends a call: no such movement, nothing to record, or a write that was answered. */
  ghost predicate IsEnd(r: Request, me: nat, key: string, node: NodeName) {
    && r.who == me
    && match r
       case Get(_, read) => read.Missing? || (read.Found? && ChangeFor(read.m, key, node) == Unchanged)
       case Put(_, _, _, _, answer, _) => answer != Error
  }

  ghost predicate Ended(log: seq<Request>, me: nat, key: string, node: NodeName) {
    exists i :: 0 <= i < |log| && IsEnd(log[i], me, key, node)
  }

  ghost predicate ReadBefore(log: seq<Request>, i: nat, r: Request) {
    exists j :: 0 <= j < i && j < |log| && log[j] == r
  }

  /** The writes of a call record its pod, in a version that it has read. */
  ghost predicate OwnWrites(log: seq<Request>, me: nat, h: seq<Movement>, key: string, node: NodeName, task: TaskInfo) {
    forall i :: 0 <= i < |log| && log[i].who == me && log[i].Put? ==>
      && log[i].task == task && log[i].base < |h|
      && RecordsOne(h[log[i].base], log[i].m, key, node, task)
      && ReadBefore(log, i, Get(me, Found(log[i].base, h[log[i].base])))
  }

  ghost predicate OnlyMe(log: seq<Request>, me: nat, task: TaskInfo) {
    forall i :: 0 <= i < |log| && log[i].Put? && log[i].task == task ==> log[i].who == me
  }

  lemma {:induction false} TallyAdds(a: seq<Request>, b: seq<Request>, me: nat, kind: Kind)
    ensures Tally(a + b, me, kind) == Tally(a, me, kind) + Tally(b, me, kind)
  {
    if b == [] {
      assert a + b == a;
    } else {
      var n := |b| - 1;
      TallyAdds(a, b[..n], me, kind);
      assert (a + b)[..|a + b| - 1] == a + b[..n];
    }
  }

  lemma {:induction false} OthersTally(log: seq<Request>, me: nat, kind: Kind)
    requires forall i :: 0 <= i < |log| ==> log[i].who != me
    ensures Tally(log, me, kind) == 0
  {
    if log != [] {
      OthersTally(log[..|log| - 1], me, kind);
    }
  }

  lemma TallyOne(r: Request, me: nat, kind: Kind)
    ensures Tally([r], me, kind) == One(Is(r, me, kind))
  {
    assert [r][..0] == [];
  }

  lemma EndedAdds(a: seq<Request>, b: seq<Request>, me: nat, key: string, node: NodeName)
    ensures Ended(a + b, me, key, node) <==> Ended(a, me, key, node) || Ended(b, me, key, node)
  {
    hide IsEnd;
    var ab := a + b;
    if i :| 0 <= i < |ab| && IsEnd(ab[i], me, key, node) {
      assert if i < |a| then ab[i] == a[i] else ab[i] == b[i - |a|];
    }
    if i :| 0 <= i < |a| && IsEnd(a[i], me, key, node) {
      assert ab[i] == a[i];
    }
    if i :| 0 <= i < |b| && IsEnd(b[i], me, key, node) {
      assert ab[|a| + i] == b[i];
    }
  }

  /** Between two moments the pod is recorded once more for every stored write for it. */
  lemma {:induction false} TimesCount(first: Movement, log: seq<Request>, from: nat, task: TaskInfo)
    requires LogOk(first, log) && from <= |log|
    ensures
      var h0, h := Replay(first, log[..from]), Replay(first, log);
      Times(h[|h| - 1], task) == Times(h0[|h0| - 1], task) + StoredFor(log[from..], task)
    decreases |log|
  {
    hide RecordsTask, Times;
    if from == |log| {
      assert log[..from] == log;
    } else {
      var n := |log| - 1;
      TimesCount(first, log[..n], from, task);
      assert log[..n][..from] == log[..from] && log[from..][..n - from] == log[..n][from..];
      var h, r := Replay(first, log[..n]), log[n];
      if r.Put? && r.stored {
        RecordingCounts(h[|h| - 1], r.m, r.task, task);
      }
    }
  }

  lemma {:induction false} StoredByMe(log: seq<Request>, me: nat, task: TaskInfo)
    requires OnlyMe(log, me, task)
    requires forall i :: 0 <= i < |log| && log[i].who == me && log[i].Put? ==> log[i].task == task
    ensures StoredFor(log, task) == Tally(log, me, Storing)
  {
    if log != [] {
      StoredByMe(log[..|log| - 1], me, task);
    }
  }

  /** What a call says about itself, over its entries in the log. */
  ghost predicate CallOk(log: seq<Request>, me: nat, key: string, node: NodeName, again: bool) {
    && (again <==> Tally(log, me, Failure) == MAX_RETRY_ATTEMPTS)
    && (again <==> !Ended(log, me, key, node))
    && Tally(log, me, Attempt) == Tally(log, me, Failure) + One(!again)
    && Tally(log, me, Storing) == Tally(log, me, Loss) + Tally(log, me, Success)
    && Tally(log, me, Success) <= One(!again)
    && Tally(log, me, Loss) <= Tally(log, me, Failure)
  }

  /** A call records its pod twice exactly if two writes were lost, or one was and another was answered. */
  lemma TwiceExactly(log: seq<Request>, me: nat, key: string, node: NodeName, again: bool)
    requires CallOk(log, me, key, node, again)
    ensures Tally(log, me, Storing) >= 2 <==>
      Tally(log, me, Loss) >= 2 || (Tally(log, me, Loss) == 1 && Tally(log, me, Success) == 1)
    ensures Tally(log, me, Storing) >= 2 ==> Tally(log, me, Loss) > 0
  {
  }

  // ---- the server and its recorders

  /** The movement in the API server, with everything that was asked of it. */
  class Server {
    var history: seq<Movement>
    ghost var log: seq<Request>

    ghost predicate Valid()
      reads this
    {
      |history| > 0 && LogOk(history[0], log) && history == Replay(history[0], log)
    }

    constructor (m: Movement)
      requires Bounded(m)
      ensures Valid() && history == [m] && log == []
    {
      history, log := [m], [];
    }

    /** A read from the informer store, which may lag behind by any number of versions. */
    method Read(me: nat) returns (read: Answered)
      requires Valid()
      modifies this`log
      ensures Valid() && log == old(log) + [Get(me, read)]
      ensures read.Found? ==> read.version < |history| && history[read.version] == read.m
    {
      hide RecordsTask;
      var version: int, found: bool := *, *;
      if 0 <= version < |history| {
        read := Found(version, history[version]);
      } else {
        read := if found then Broken else Missing;
      }
      Logged(history[0], log, Get(me, read));
      log := log + [Get(me, read)];
    }

    /** A write of a copy that was read at version `base`. */
    method UpdateStatus(me: nat, task: TaskInfo, base: nat, m: Movement) returns (answer: Answer)
      requires Valid() && base < |history| && RecordsTask(history[base], m, task)
      modifies this
      ensures Valid() && old(history) <= history && |log| == |old(log)| + 1
      ensures
        var r := log[|log| - 1];
        log == old(log) + [r] && r.Put? && r == Put(me, task, base, m, answer, r.stored) && Legal(old(history), r)
    {
      hide RecordsTask;
      var reached: bool, answered: bool, deleted: bool := *, *, *;
      var stored := !deleted && reached && base + 1 == |history|;
      answer := if deleted then Deleted else if stored && answered then Stored else Error;
      Logged(history[0], log, Put(me, task, base, m, answer, stored));
      log := log + [Put(me, task, base, m, answer, stored)];
      if stored {
        history := history + [m];
      }
    }

    /** What other recorders do meanwhile: each works from some version it read. */
    method Interleave(me: nat)
      requires Valid()
      modifies this
      ensures Valid() && old(history) <= history && old(log) <= log
      ensures forall i :: |old(log)| <= i < |log| ==> log[i].who != me
    {
      hide RecordsTask, LogOk, Replay, Legal;
      var n: int := *;
      while n > 0
        invariant Valid() && old(history) <= history && old(log) <= log
        invariant forall i :: |old(log)| <= i < |log| ==> log[i].who != me
      {
        n := n - 1;
        var who: nat := *;
        if who != me {
          RecordOnce(who);
        }
      }
    }

    /** A request of another recorder, for any pod. */
    method RecordOnce(who: nat)
      requires Valid()
      modifies this
      ensures Valid() && old(history) <= history && old(log) <= log
      ensures forall i :: |old(log)| <= i < |log| ==> log[i].who == who
    {
      hide RecordsTask, LogOk, Replay, Legal, Recorded;
      var base: int, reading: bool := *, *;
      if reading {
        var read := Read(who);
      } else if 0 <= base < |history| {
        var key: string, node: NodeName, task: TaskInfo := *, *, *;
        var m, change := Record(history[base], key, node, task);
        if change != Unchanged {
          IsRecording(history[base], m, key, node, task, change);
          var answer := UpdateStatus(who, task, base, m);
        }
      }
    }
  }

  lemma IsRecording(m: Movement, m': Movement, key: string, node: NodeName, task: TaskInfo, change: Change)
    requires Recorded(m, m', key, node, task, change) && change != Unchanged
    ensures RecordsOne(m, m', key, node, task) && RecordsTask(m, m', task)
  {
    hide Recorded;
    assert change == Matched || change == Mismatched;
    assert RecordsOne(m, m', key, node, task);
  }

  /** What one attempt adds to the log. */
  ghost predicate AttemptOk(log: seq<Request>, me: nat, key: string, node: NodeName, done: bool) {
    && Tally(log, me, Attempt) == 1
    && Tally(log, me, Failure) == One(!done)
    && (done <==> Ended(log, me, key, node))
    && Tally(log, me, Storing) == Tally(log, me, Loss) + Tally(log, me, Success)
    && Tally(log, me, Success) <= One(done)
    && Tally(log, me, Loss) <= One(!done)
  }

  /** Entries of a call: others' requests, a read, others' requests, and perhaps a write. */
  lemma AttemptEntries(
    log: seq<Request>, a: seq<Request>, get: Request, b: seq<Request>, puts: seq<Request>,
    me: nat, key: string, node: NodeName, h: seq<Movement>)
    requires log == a + [get] + b + puts && (forall i :: 0 <= i < |a| ==> a[i].who != me)
    requires (forall i :: 0 <= i < |b| ==> b[i].who != me)
    requires get.Get? && get.who == me
    requires if get.read.Found? && ChangeFor(get.read.m, key, node) != Unchanged
             then |puts| == 1 && puts[0].Put? && puts[0].who == me && Legal(h, puts[0]) else puts == []
    ensures AttemptOk(log, me, key, node,
      IsEnd(get, me, key, node) || (puts != [] && IsEnd(puts[0], me, key, node)))
  {
    hide Legal, ChangeFor;
    forall kind: Kind
      ensures Tally(log, me, kind) == One(Is(get, me, kind)) + (if puts == [] then 0 else One(Is(puts[0], me, kind)))
    {
      TallyAdds(a + [get] + b, puts, me, kind);
      TallyAdds(a + [get], b, me, kind);
      TallyAdds(a, [get], me, kind);
      OthersTally(a, me, kind);
      OthersTally(b, me, kind);
      TallyOne(get, me, kind);
      if puts != [] {
        assert puts == [puts[0]];
        TallyOne(puts[0], me, kind);
      }
    }
    EndedAdds(a + [get] + b, puts, me, key, node);
    EndedAdds(a + [get], b, me, key, node);
    EndedAdds(a, [get], me, key, node);
    NotEnded(a, me, key, node);
    NotEnded(b, me, key, node);
    assert Ended([get], me, key, node) <==> IsEnd([get][0], me, key, node);
    if puts != [] {
      LegalAnswers(h, puts[0]);
      assert Ended(puts, me, key, node) <==> IsEnd(puts[0], me, key, node);
    }
  }

  lemma LegalAnswers(h: seq<Movement>, r: Request)
    requires Legal(h, r) && r.Put?
    ensures (r.answer == Stored ==> r.stored) && (r.answer == Deleted ==> !r.stored)
  {
  }

  lemma NotEnded(log: seq<Request>, me: nat, key: string, node: NodeName)
    requires forall i :: 0 <= i < |log| ==> log[i].who != me
    ensures !Ended(log, me, key, node)
  {
  }

  /** One attempt: a read, which may be stale, and a write if there is something to record. */
  method TryRecord(server: Server, me: nat, key: string, node: NodeName, task: TaskInfo) returns (done: bool)
    requires server.Valid()
    modifies server
    ensures server.Valid() && old(server.history) <= server.history && old(server.log) <= server.log
    ensures AttemptOk(server.log[|old(server.log)|..], me, key, node, done)
    ensures OwnWrites(server.log[|old(server.log)|..], me, server.history, key, node, task)
  {
    hide RecordsTask, RecordsOne, LogOk, Replay, Legal, Recorded, AttemptOk, ChangeFor;
    ghost var l0 := server.log;
    server.Interleave(me);
    ghost var l1 := server.log;
    var read := server.Read(me);
    ghost var l2 := server.log;
    if read.Missing? || read.Broken? {
      assert server.log[|l0|..] == l1[|l0|..] + [Get(me, read)] + [] + [];
      AttemptEntries(server.log[|l0|..], l1[|l0|..], Get(me, read), [], [], me, key, node, []);
      return read.Missing?;
    }
    var m, change := Record(read.m, key, node, task);
    if change == Unchanged {
      assert server.log[|l0|..] == l1[|l0|..] + [Get(me, read)] + [] + [];
      AttemptEntries(server.log[|l0|..], l1[|l0|..], Get(me, read), [], [], me, key, node, []);
      return true;
    }
    IsRecording(read.m, m, key, node, task, change);
    server.Interleave(me);
    ghost var l3, h := server.log, server.history;
    assert h[read.version] == read.m;
    var answer := server.UpdateStatus(me, task, read.version, m);
    ghost var puts := [server.log[|server.log| - 1]];
    assert server.log[|l0|..] == l1[|l0|..] + [Get(me, read)] + l3[|l2|..] + puts;
    AttemptEntries(server.log[|l0|..], l1[|l0|..], Get(me, read), l3[|l2|..], puts, me, key, node, h);
    assert server.log[|l0|..][|l1| - |l0|] == Get(me, read);
    return answer != Error;
  }

  lemma WritesAdd(
    a: seq<Request>, b: seq<Request>, me: nat, h: seq<Movement>, h': seq<Movement>,
    key: string, node: NodeName, task: TaskInfo)
    requires OwnWrites(a, me, h, key, node, task) && OwnWrites(b, me, h', key, node, task) && h <= h'
    ensures OwnWrites(a + b, me, h', key, node, task)
  {
    hide RecordsOne;
    var ab := a + b;
    forall i | 0 <= i < |ab| && ab[i].who == me && ab[i].Put?
      ensures ab[i].task == task && ab[i].base < |h'| && RecordsOne(h'[ab[i].base], ab[i].m, key, node, task)
      ensures ReadBefore(ab, i, Get(me, Found(ab[i].base, h'[ab[i].base])))
    {
      var r := Get(me, Found(ab[i].base, h'[ab[i].base]));
      if i < |a| {
        assert ab[i] == a[i];
        var j :| 0 <= j < i && a[j] == r;
        assert ab[j] == r;
      } else {
        assert ab[i] == b[i - |a|];
        var j :| 0 <= j < i - |a| && b[j] == r;
        assert ab[|a| + j] == r;
      }
    }
  }

  /** What the attempts so far say about the call. */
  ghost predicate SoFar(log: seq<Request>, me: nat, key: string, node: NodeName, attempts: nat, done: bool) {
    && Tally(log, me, Attempt) == attempts
    && Tally(log, me, Failure) + One(done) == attempts
    && (done <==> Ended(log, me, key, node))
    && Tally(log, me, Storing) == Tally(log, me, Loss) + Tally(log, me, Success)
    && Tally(log, me, Success) <= One(done)
    && Tally(log, me, Loss) <= Tally(log, me, Failure)
  }

  lemma OneMoreAttempt(
    a: seq<Request>, b: seq<Request>, me: nat, key: string, node: NodeName, attempts: nat, done: bool)
    requires SoFar(a, me, key, node, attempts, false) && AttemptOk(b, me, key, node, done)
    ensures SoFar(a + b, me, key, node, attempts + 1, done)
  {
    hide Tally, Ended;
    forall kind: Kind
      ensures Tally(a + b, me, kind) == Tally(a, me, kind) + Tally(b, me, kind)
    {
      TallyAdds(a, b, me, kind);
    }
    EndedAdds(a, b, me, key, node);
  }

  /**
   Records a pod, retrying from a fresh read after every failed request. It asks to be called
   again exactly if all its attempts failed, and then none of them ended it. The pod is
   recorded once for a write that is answered and once more for every write that was stored
   although its answer was lost.
  */
  method UpdateMovement(server: Server, me: nat, key: string, node: NodeName, task: TaskInfo) returns (again: bool)
    requires server.Valid()
    modifies server
    ensures server.Valid() && old(server.history) <= server.history && old(server.log) <= server.log
    ensures forall v :: 0 <= v < |server.history| ==> Bounded(server.history[v])
    ensures CallOk(server.log[|old(server.log)|..], me, key, node, again)
    ensures OwnWrites(server.log[|old(server.log)|..], me, server.history, key, node, task)
    ensures
      var mine := server.log[|old(server.log)|..];
      OnlyMe(mine, me, task) ==>
        Times(server.history[|server.history| - 1], task) ==
        old(Times(server.history[|server.history| - 1], task)) + Tally(mine, me, Storing)
  {
    hide RecordsTask, RecordsOne, LogOk, Replay, AttemptOk, SoFar, Bounded, OnlyMe, Times, ReadBefore, Tally, Ended;
    ghost var l0 := server.log;
    again := true;
    var i := 0;
    NothingSoFar(server.log[|l0|..], me, key, node);
    while i < MAX_RETRY_ATTEMPTS && again
      invariant server.Valid() && old(server.history) <= server.history && l0 <= server.log
      invariant 0 <= i <= MAX_RETRY_ATTEMPTS
      invariant SoFar(server.log[|l0|..], me, key, node, i, !again)
      invariant OwnWrites(server.log[|l0|..], me, server.history, key, node, task)
      decreases MAX_RETRY_ATTEMPTS - i
    {
      ghost var l, h := server.log, server.history;
      var done := TryRecord(server, me, key, node, task);
      OneMoreAttempt(l[|l0|..], server.log[|l|..], me, key, node, i, done);
      WritesAdd(l[|l0|..], server.log[|l|..], me, h, server.history, key, node, task);
      assert l[|l0|..] + server.log[|l|..] == server.log[|l0|..];
      i, again := i + 1, !done;
    }
    SoFarIsCall(server.log[|l0|..], me, key, node, i, again);
    VersionsBounded(server.history[0], server.log);
    CountsUp(server.history[0], server.log, |l0|, me, server.history, key, node, task);
    assert server.log[..|l0|] == l0;
  }

  lemma NothingSoFar(log: seq<Request>, me: nat, key: string, node: NodeName)
    requires log == []
    ensures SoFar(log, me, key, node, 0, false)
  {
  }

  lemma SoFarIsCall(log: seq<Request>, me: nat, key: string, node: NodeName, attempts: nat, again: bool)
    requires SoFar(log, me, key, node, attempts, !again) && attempts <= MAX_RETRY_ATTEMPTS
    requires again ==> attempts == MAX_RETRY_ATTEMPTS
    ensures CallOk(log, me, key, node, again)
  {
    hide Tally, Ended;
  }

  lemma VersionsBounded(first: Movement, log: seq<Request>)
    requires LogOk(first, log)
    ensures forall v :: 0 <= v < |Replay(first, log)| ==> Bounded(Replay(first, log)[v])
  {
    LoggedHistory(first, log);
    forall v | 0 <= v < |Replay(first, log)|
      ensures Bounded(Replay(first, log)[v])
    {
      BoundsHold(Replay(first, log), v);
    }
  }

  lemma CountsUp(
    first: Movement, log: seq<Request>, from: nat, me: nat, h: seq<Movement>,
    key: string, node: NodeName, task: TaskInfo)
    requires LogOk(first, log) && from <= |log| && h == Replay(first, log)
    requires OwnWrites(log[from..], me, h, key, node, task)
    ensures
      var h0 := Replay(first, log[..from]);
      OnlyMe(log[from..], me, task) ==>
        Times(h[|h| - 1], task) == Times(h0[|h0| - 1], task) + Tally(log[from..], me, Storing)
  {
    hide RecordsOne, ReadBefore;
    TimesCount(first, log, from, task);
    if OnlyMe(log[from..], me, task) {
      StoredByMe(log[from..], me, task);
    }
  }

  // ---- it happens

  function Wants(actual: seq<TaskInfo>): Owner {
    Owner("owner", [Suggestion("node", 2, actual)], [])
  }

  /** The entries of a call that reads, writes, gets no answer, and does the same again. */
  ghost function TwoWrites(): seq<Request> {
    var a, b, c := [Wants([])], [Wants([7])], [Wants([7, 7])];
    [Get(0, Found(0, a)), Put(0, 7, 0, b, Error, true), Get(0, Found(1, b)), Put(0, 7, 1, c, Stored, true)]
  }

  lemma RecordsMore(actual: seq<TaskInfo>, task: TaskInfo)
    requires |actual| < 2
    ensures RecordsOne([Wants(actual)], [Wants(actual + [task])], "owner", "node", task)
    ensures RecordsTask([Wants(actual)], [Wants(actual + [task])], task)
  {
    var m, m' := [Wants(actual)], [Wants(actual + [task])];
    AddsOne(m[0], m'[0], task);
    assert Recorded(m, m', "owner", "node", task, Matched);
    assert RecordsOne(m, m', "owner", "node", task);
  }

  lemma AddsOne(before: Owner, after: Owner, task: TaskInfo)
    requires |before.suggestions| == 1 && before.suggestions[0].node == "node" && before.suggestions[0].desired == 2
    requires |before.suggestions[0].actual| < 2 && after.key == before.key && after.mismatched == before.mismatched
    requires |after.suggestions| == 1 && after.suggestions[0].node == "node" && after.suggestions[0].desired == 2
    requires after.suggestions[0].actual == before.suggestions[0].actual + [task]
    ensures AddedTo(before, after, "node", task, true)
  {
    var i := 0;
    assert before.suggestions[i := before.suggestions[i].(actual := before.suggestions[i].actual + [task])] == after.suggestions;
  }

  lemma WantsMore()
    ensures ChangeFor([Wants([])], "owner", "node") == Matched && ChangeFor([Wants([7])], "owner", "node") == Matched
    ensures Bounded([Wants([])])
  {
    assert OwnerOf([Wants([])], "owner") == 0 && OwnerOf([Wants([7])], "owner") == 0;
  }

  /** A read of the latest version and a write of the next, both in the log. */
  lemma ReadAndWrite(first: Movement, log: seq<Request>, h: seq<Movement>, m: Movement, task: TaskInfo, answer: Answer)
    requires LogOk(first, log) && h == Replay(first, log) && answer != Deleted
    requires RecordsTask(h[|h| - 1], m, task)
    ensures
      var log' := log + [Get(0, Found(|h| - 1, h[|h| - 1])), Put(0, task, |h| - 1, m, answer, true)];
      LogOk(first, log') && Replay(first, log') == h + [m]
  {
    hide RecordsTask;
    var get, put := Get(0, Found(|h| - 1, h[|h| - 1])), Put(0, task, |h| - 1, m, answer, true);
    Logged(first, log, get);
    Logged(first, log + [get], put);
    assert log + [get] + [put] == log + [get, put];
  }

  lemma TwoWritesLegal()
    ensures LogOk([Wants([])], TwoWrites())
    ensures Replay([Wants([])], TwoWrites()) == [[Wants([])], [Wants([7])], [Wants([7, 7])]]
  {
    hide Wants, RecordsTask, RecordsOne, Bounded, LogOk, Replay;
    var a, b, c := [Wants([])], [Wants([7])], [Wants([7, 7])];
    WantsMore();
    RecordsMore([], 7);
    RecordsMore([7], 7);
    assert [] + [7] == [7] && [7] + [7] == [7, 7];
    NothingLogged(a);
    ReadAndWrite(a, [], [a], b, 7, Error);
    assert [a] + [b] == [a, b];
    var log := [] + [Get(0, Found(0, a)), Put(0, 7, 0, b, Error, true)];
    ReadAndWrite(a, log, [a, b], c, 7, Stored);
    assert [a, b] + [c] == [a, b, c];
    assert log + [Get(0, Found(1, b)), Put(0, 7, 1, c, Stored, true)] == TwoWrites();
  }

  lemma NothingLogged(first: Movement)
    requires Bounded(first)
    ensures LogOk(first, []) && Replay(first, []) == [first]
  {
  }

  /** The answer to the first write is lost, and the retry records the pod again. */
  lemma RecordedTwice()
    ensures LogOk([Wants([])], TwoWrites()) && CallOk(TwoWrites(), 0, "owner", "node", false)
    ensures
      var h := Replay([Wants([])], TwoWrites());
      OwnWrites(TwoWrites(), 0, h, "owner", "node", 7) && Times(h[0], 7) == 0 && Times(h[|h| - 1], 7) == 2
  {
    hide LogOk, Replay, Wants, RecordsOne, ChangeFor;
    TwoWritesLegal();
    RecordsMore([], 7);
    RecordsMore([7], 7);
    assert [] + [7] == [7] && [7] + [7] == [7, 7];
    WantsMore();
    TwoWritesCount();
    TwoWritesTimes();
    var log := TwoWrites();
    assert ReadBefore(log, 1, log[0]) && ReadBefore(log, 3, log[2]);
    assert IsEnd(log[3], 0, "owner", "node");
  }

  lemma TwoWritesCount()
    ensures Tally(TwoWrites(), 0, Attempt) == 2 && Tally(TwoWrites(), 0, Failure) == 1
    ensures Tally(TwoWrites(), 0, Storing) == 2 && Tally(TwoWrites(), 0, Loss) == 1 && Tally(TwoWrites(), 0, Success) == 1
  {
    hide Wants;
    var log := TwoWrites();
    forall kind: Kind
      ensures Tally(log, 0, kind) ==
        One(Is(log[0], 0, kind)) + One(Is(log[1], 0, kind)) + One(Is(log[2], 0, kind)) + One(Is(log[3], 0, kind))
    {
      TallyOne(log[0], 0, kind);
      TallyOne(log[1], 0, kind);
      TallyOne(log[2], 0, kind);
      TallyOne(log[3], 0, kind);
      TallyAdds([log[0]], [log[1]], 0, kind);
      TallyAdds([log[0]] + [log[1]], [log[2]], 0, kind);
      TallyAdds([log[0]] + [log[1]] + [log[2]], [log[3]], 0, kind);
      assert [log[0]] + [log[1]] + [log[2]] + [log[3]] == log;
    }
  }

  lemma TwoWritesTimes()
    ensures Times([Wants([])], 7) == 0 && Times([Wants([7, 7])], 7) == 2
  {
    var none, two := Wants([]).suggestions, Wants([7, 7]).suggestions;
    assert none[..0] == [] && two[..0] == [];
    assert multiset([7, 7])[7] == 2 && multiset(two[0].actual)[7] == 2;
    assert [Wants([])][..0] == [] && [Wants([7, 7])][..0] == [];
  }
}
