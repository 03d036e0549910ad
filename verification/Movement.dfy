/**
 Recording where pods of a movement were placed. Any number of recorders work on one API
 object with stale reads and compare-and-swap writes; every suggestion keeps at most the
 pods it asked for, and every owner at most as many mismatches as it asked for pods.
*/
module Movement {

  import opened BinderTypes

  type TaskInfo = nat

  datatype Suggestion = Suggestion(node: NodeName, desired: int, actual: seq<TaskInfo>)

  datatype Owner = Owner(key: string, suggestions: seq<Suggestion>, mismatched: seq<TaskInfo>)

  type Movement = seq<Owner>

  // ---- the bounds

  ghost function Positive(x: int): nat {
    if x > 0 then x else 0
  }

  /** How many pods an owner asks for in all. */
  ghost function Asked(suggestions: seq<Suggestion>): nat {
    if suggestions == [] then 0
    else Asked(suggestions[..|suggestions| - 1]) + Positive(suggestions[|suggestions| - 1].desired)
  }

  ghost predicate SuggestionsOk(suggestions: seq<Suggestion>) {
    forall i :: 0 <= i < |suggestions| ==> |suggestions[i].actual| <= Positive(suggestions[i].desired)
  }

  ghost predicate OwnerOk(o: Owner) {
    SuggestionsOk(o.suggestions) && |o.mismatched| <= Asked(o.suggestions)
  }

  ghost predicate Bounded(m: Movement) {
    forall i :: 0 <= i < |m| ==> OwnerOk(m[i])
  }

  lemma {:induction false} PrefixAsksLess(suggestions: seq<Suggestion>, n: nat)
    requires n <= |suggestions|
    ensures Asked(suggestions[..n]) <= Asked(suggestions)
    decreases |suggestions| - n
  {
    if n == |suggestions| {
      assert suggestions[..n] == suggestions;
    } else {
      PrefixAsksLess(suggestions, n + 1);
      assert suggestions[..n + 1][..n] == suggestions[..n];
    }
  }

  /** A pod added to a suggestion does not change what is asked for. */
  lemma {:induction false} AskedSame(s: seq<Suggestion>, t: seq<Suggestion>)
    requires |s| == |t| && forall i :: 0 <= i < |s| ==> s[i].desired == t[i].desired
    ensures Asked(s) == Asked(t)
  {
    if s != [] {
      AskedSame(s[..|s| - 1], t[..|t| - 1]);
    }
  }

  // ---- recording one pod

  /** The pod was added in one place: a suggestion for its node, or the mismatches of its owner. */
  ghost predicate AddedTo(before: Owner, after: Owner, node: NodeName, task: TaskInfo, matched: bool) {
    if matched then
      exists i :: 0 <= i < |before.suggestions|
        && before.suggestions[i].node == node && |before.suggestions[i].actual| < before.suggestions[i].desired
        && after == before.(suggestions := before.suggestions[i :=
             before.suggestions[i].(actual := before.suggestions[i].actual + [task])])
    else
      after == before.(mismatched := before.mismatched + [task])
      && |before.mismatched| < Asked(before.suggestions)
  }

  lemma AddedKeepsBounds(before: Owner, after: Owner, node: NodeName, task: TaskInfo, matched: bool)
    requires OwnerOk(before) && AddedTo(before, after, node, task, matched)
    ensures OwnerOk(after)
  {
    if matched {
      AskedSame(before.suggestions, after.suggestions);
    }
  }

  datatype Change = Unchanged | Matched | Mismatched

  /** What recording may do to a movement. */
  ghost predicate Recorded(m: Movement, m': Movement, key: string, node: NodeName, task: TaskInfo, change: Change) {
    if change == Unchanged then m' == m
    else
      exists i :: 0 <= i < |m| && |m'| == |m| && m[i].key == key
        && (forall j :: 0 <= j < i ==> m[j].key != key)
        && (forall j :: 0 <= j < |m| && j != i ==> m'[j] == m[j])
        && AddedTo(m[i], m'[i], node, task, change == Matched)
  }

  lemma RecordedKeepsBounds(m: Movement, m': Movement, key: string, node: NodeName, task: TaskInfo, change: Change)
    requires Bounded(m) && Recorded(m, m', key, node, task, change)
    ensures Bounded(m')
  {
    if change != Unchanged {
      var i :| 0 <= i < |m| && |m'| == |m| && m[i].key == key
        && (forall j :: 0 <= j < |m| && j != i ==> m'[j] == m[j])
        && AddedTo(m[i], m'[i], node, task, change == Matched);
      AddedKeepsBounds(m[i], m'[i], node, task, change == Matched);
    }
  }

  /** The first suggestion for a node, or the end. */
  ghost function FirstFor(suggestions: seq<Suggestion>, node: NodeName): (r: nat)
    ensures r <= |suggestions|
    ensures r < |suggestions| ==> suggestions[r].node == node
    ensures forall i :: 0 <= i < r ==> suggestions[i].node != node
  {
    if suggestions == [] || suggestions[0].node == node then 0 else 1 + FirstFor(suggestions[1..], node)
  }

  ghost predicate HasRoom(suggestions: seq<Suggestion>, node: NodeName) {
    var i := FirstFor(suggestions, node);
    i < |suggestions| && |suggestions[i].actual| < suggestions[i].desired
  }

  ghost function SumDesired(suggestions: seq<Suggestion>): int {
    if suggestions == [] then 0
    else SumDesired(suggestions[..|suggestions| - 1]) + suggestions[|suggestions| - 1].desired
  }

  /** What the suggestions ask for that are looked at: all up to the first one for the node. */
  ghost function SeenDesired(suggestions: seq<Suggestion>, node: NodeName): int {
    var i := FirstFor(suggestions, node);
    SumDesired(suggestions[..if i < |suggestions| then i + 1 else i])
  }

  lemma {:induction false} SumIsAsked(suggestions: seq<Suggestion>)
    ensures SumDesired(suggestions) <= Asked(suggestions)
  {
    if suggestions != [] {
      SumIsAsked(suggestions[..|suggestions| - 1]);
    }
  }

  lemma SeenIsAsked(suggestions: seq<Suggestion>, node: NodeName)
    ensures SeenDesired(suggestions, node) <= Asked(suggestions)
  {
    var i := FirstFor(suggestions, node);
    var n := if i < |suggestions| then i + 1 else i;
    SumIsAsked(suggestions[..n]);
    PrefixAsksLess(suggestions, n);
  }

  /**
   Adds a pod to the first suggestion for its node. When that is full, or there is none, the pod
   is a mismatch, of which the owner takes as many as the suggestions seen so far ask for.
  */
  method RecordInOwner(o: Owner, node: NodeName, task: TaskInfo) returns (o': Owner, change: Change)
    ensures change == Matched <==> HasRoom(o.suggestions, node)
    ensures change == Unchanged <==>
      !HasRoom(o.suggestions, node) && |o.mismatched| >= SeenDesired(o.suggestions, node)
    ensures change == Unchanged ==> o' == o
    ensures change != Unchanged ==> AddedTo(o, o', node, task, change == Matched)
  {
    var allDesired, i := 0, 0;
    ghost var first := FirstFor(o.suggestions, node);
    while i < |o.suggestions|
      invariant 0 <= i <= first
      invariant allDesired == SumDesired(o.suggestions[..i])
    {
      var s := o.suggestions[i];
      assert o.suggestions[..i + 1][..i] == o.suggestions[..i];
      allDesired := allDesired + s.desired;
      if s.node == node {
        if |s.actual| < s.desired {
          o' := o.(suggestions := o.suggestions[i := s.(actual := s.actual + [task])]);
          return o', Matched;
        }
        break;
      }
      i := i + 1;
    }
    assert allDesired == SeenDesired(o.suggestions, node);
    SeenIsAsked(o.suggestions, node);
    if |o.mismatched| >= allDesired {
      return o, Unchanged;
    }
    return o.(mismatched := o.mismatched + [task]), Mismatched;
  }

  /** The first owner with a key, or the end. */
  ghost function OwnerOf(m: Movement, key: string): (r: nat)
    ensures r <= |m|
    ensures r < |m| ==> m[r].key == key
    ensures forall i :: 0 <= i < r ==> m[i].key != key
  {
    if m == [] || m[0].key == key then 0 else 1 + OwnerOf(m[1..], key)
  }

  /** How a pod is recorded, judging from the movement alone. */
  ghost function ChangeFor(m: Movement, key: string, node: NodeName): Change {
    var i := OwnerOf(m, key);
    if i == |m| then Unchanged
    else if HasRoom(m[i].suggestions, node) then Matched
    else if |m[i].mismatched| < SeenDesired(m[i].suggestions, node) then Mismatched
    else Unchanged
  }

  /** Records a pod with the first owner that has its key. */
  method Record(m: Movement, key: string, node: NodeName, task: TaskInfo) returns (m': Movement, change: Change)
    ensures Recorded(m, m', key, node, task, change)
    ensures change == ChangeFor(m, key, node)
  {
    for i := 0 to |m|
      invariant forall j :: 0 <= j < i ==> m[j].key != key
    {
      if m[i].key == key {
        assert OwnerOf(m, key) == i;
        var o;
        o, change := RecordInOwner(m[i], node, task);
        if change == Unchanged {
          return m, Unchanged;
        }
        return m[i := o], change;
      }
    }
    return m, Unchanged;
  }

  // ---- many recorders

  /** The movement after one more write: the same, or with one more pod recorded. */
  ghost predicate Evolves(m: Movement, m': Movement) {
    exists key, node, task, change :: Recorded(m, m', key, node, task, change)
  }

  lemma RecordingEvolves(m: Movement, m': Movement, key: string, node: NodeName, task: TaskInfo, change: Change)
    requires Recorded(m, m', key, node, task, change)
    ensures Evolves(m, m')
  {
  }

  /** `history[v]` is the movement at version `v`. */
  ghost predicate IsHistory(history: seq<Movement>) {
    && |history| > 0 && Bounded(history[0])
    && (forall v :: 0 <= v < |history| - 1 ==> Evolves(history[v], history[v + 1]))
  }

  /** Whoever wrote them, all versions keep the bounds. */
  lemma {:induction false} BoundsHold(history: seq<Movement>, v: nat)
    requires IsHistory(history) && v < |history|
    ensures Bounded(history[v])
  {
    if v > 0 {
      BoundsHold(history, v - 1);
      assert Evolves(history[v - 1], history[v - 1 + 1]);
      var key, node, task, change :| Recorded(history[v - 1], history[v], key, node, task, change);
      RecordedKeepsBounds(history[v - 1], history[v], key, node, task, change);
    }
  }
}
