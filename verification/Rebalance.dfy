/**
 Rebalancing the partitions: nodes of the largest active partition are moved, one by one, to
 whichever active partition is smallest at that moment. Every single move narrows the gap by
 two, so a round makes progress, stays between the old extremes, and rounds come to an end.
*/
module Rebalance {

  import opened BinderTypes
  import opened SetSum
  import opened Maintainer

  /** What rebalancing lowers: the sum of the squared loads of the active schedulers. */
  ghost function Squares(schedulers: Schedulers): int {
    Sum(Active(schedulers), s => Load(schedulers, s) * Load(schedulers, s))
  }

  /** Some active scheduler has more than twice the nodes of another one, and more than one. */
  ghost predicate Unbalanced(schedulers: Schedulers) {
    exists s, t :: IsMost(schedulers, s) && IsLeast(schedulers, t) &&
      Load(schedulers, s) > 2 * Load(schedulers, t) && Load(schedulers, s) > 1
  }

  /** How many nodes a round moves. */
  function ToMove(most: nat, least: nat): int {
    (most + least) / 2 - least
  }

  lemma MovesSomeNotAll(most: nat, least: nat)
    requires most > 2 * least && most > 1
    ensures 1 <= ToMove(most, least) < most
    ensures 2 * ToMove(most, least) <= most - least <= 2 * ToMove(most, least) + 1
  {
  }

  /** Before each move the giver is at least two nodes ahead, however the others were chosen. */
  lemma GapStays(most: nat, least: nat, i: int)
    requires most > 2 * least && 0 <= i < ToMove(most, least)
    ensures most - i >= least + i + 2
    ensures least <= most - i - 1
  {
  }

  /** One node has gone from partition `d` to partition `t`, and nothing else changed. */
  ghost predicate OneMoved(before: Schedulers, after: Schedulers, d: string, t: string) {
    && d != t && d in Active(before) && t in Active(before)
    && Active(after) == Active(before)
    && Load(before, d) > 0 && Load(after, d) == Load(before, d) - 1
    && Load(after, t) == Load(before, t) + 1
    && (forall s :: s in Active(before) && s != d && s != t ==> Load(after, s) == Load(before, s))
  }

  lemma SumOfTwo(a: set<string>, d: string, t: string, w: string -> int, w': string -> int)
    requires d in a && t in a && d != t
    requires forall s :: s in a && s != d && s != t ==> w(s) == w'(s)
    ensures Sum(a, w') == Sum(a, w) - w(d) - w(t) + w'(d) + w'(t)
  {
    SumRemove(a, d, w);
    SumRemove(a - {d}, t, w);
    SumRemove(a, d, w');
    SumRemove(a - {d}, t, w');
    SumSame(a - {d} - {t}, w, w');
  }

  lemma SquareStep(x: int, y: int)
    requires x - y >= 2
    ensures (x - 1) * (x - 1) + (y + 1) * (y + 1) <= x * x + y * y - 2
  {
    assert (x - 1) * (x - 1) == x * x - 2 * x + 1;
    assert (y + 1) * (y + 1) == y * y + 2 * y + 1;
  }

  lemma SquaresFall(before: Schedulers, after: Schedulers, d: string, t: string)
    requires OneMoved(before, after, d, t) && Load(before, d) - Load(before, t) >= 2
    ensures Squares(after) <= Squares(before) - 2
  {
    hide Active, Load;
    SumOfTwo(Active(before), d, t,
      s => Load(before, s) * Load(before, s), s => Load(after, s) * Load(after, s));
    SquareStep(Load(before, d), Load(before, t));
  }

  lemma SquaresNonNegative(schedulers: Schedulers)
    ensures Squares(schedulers) >= 0
  {
    SumNonNegative(Active(schedulers), s => Load(schedulers, s) * Load(schedulers, s));
  }

  lemma MoveChangesNodes(
    before: Schedulers, after: Schedulers, annotations: map<NodeName, string>, n: NodeName, d: string, t: string, s: string)
    requires Refines(before, annotations) && Refines(after, annotations[n := t])
    requires d in before && d != t && n in before[d].nodes
    requires s in before && s in after
    ensures after[s].nodes ==
      if s == d then before[d].nodes - {n} else if s == t then before[t].nodes + {n} else before[s].nodes
    ensures s != d ==> n !in before[s].nodes
  {
    Annotated(annotations, n, t, s);
    if s != d && n in before[s].nodes {
      OnePartition(before, annotations, s, d, n);
      assert false;
    }
  }

  lemma MoveChangesLoads(
    before: Schedulers, after: Schedulers, annotations: map<NodeName, string>, n: NodeName, d: string, t: string)
    requires Refines(before, annotations) && Refines(after, annotations[n := t])
    requires d in Active(before) && t in Active(before) && d != t && n in before[d].nodes
    requires SameActivity(before, after) && after.Keys == before.Keys
    ensures OneMoved(before, after, d, t)
    ensures after[d].nodes == before[d].nodes - {n}
  {
    hide Refines;
    assert Active(after) == Active(before);
    forall s | s in before
      ensures after[s].nodes ==
        if s == d then before[d].nodes - {n} else if s == t then before[t].nodes + {n} else before[s].nodes
    {
      MoveChangesNodes(before, after, annotations, n, d, t, s);
    }
    MoveChangesNodes(before, after, annotations, n, d, t, t);
  }

  // ---- a round

  /** The round so far: `i` nodes have left `d`, and nobody is outside the extremes it began with. */
  ghost predicate RoundOk(start: Schedulers, e: Extremes, now: Schedulers, i: nat) {
    && Active(now) == Active(start) && now.Keys == start.Keys
    && e.mostName in Active(now) && e.leastName in Active(now)
    && e.most == Load(start, e.mostName) && Load(now, e.mostName) == e.most - i
    && Load(now, e.leastName) <= e.least + i
    && (forall s :: s in Active(now) ==> e.least <= Load(now, s) <= e.most)
    && Squares(now) <= Squares(start) - 2 * i
    && Levelled(start, e, now, i)
  }

  /** Whoever gained nodes has at most one more than anybody else but the giver, and not more than its share. */
  ghost predicate Levelled(start: Schedulers, e: Extremes, now: Schedulers, i: nat) {
    forall s :: s in Active(now) && Load(now, s) > Load(start, s) ==>
      && Load(now, s) <= e.least + i
      && (forall t :: t in Active(now) && t != e.mostName ==> Load(now, s) <= Load(now, t) + 1)
  }

  lemma LevelledStep(start: Schedulers, e: Extremes, now: Schedulers, i: nat, t: string, after: Schedulers)
    requires Levelled(start, e, now, i) && Load(now, e.mostName) == e.most - i && e.most == Load(start, e.mostName)
    requires IsLeast(now, t) && e.leastName in Active(now) && Load(now, e.leastName) <= e.least + i
    requires OneMoved(now, after, e.mostName, t)
    ensures Levelled(start, e, after, i + 1)
  {
  }

  lemma RoundStep(start: Schedulers, e: Extremes, now: Schedulers, i: nat, t: string, after: Schedulers)
    requires RoundOk(start, e, now, i) && e.most > 2 * e.least && i < ToMove(e.most, e.least)
    requires IsLeast(now, t) && OneMoved(now, after, e.mostName, t) && after.Keys == now.Keys
    ensures RoundOk(start, e, after, i + 1)
  {
    hide Squares, Levelled;
    GapStays(e.most, e.least, i);
    SquaresFall(now, after, e.mostName, t);
    LevelledStep(start, e, now, i, t, after);
  }

  lemma GiverIsNotLeast(start: Schedulers, e: Extremes, now: Schedulers, i: nat, t: string)
    requires RoundOk(start, e, now, i) && e.most > 2 * e.least && i < ToMove(e.most, e.least) && IsLeast(now, t)
    ensures t != e.mostName
  {
    GapStays(e.most, e.least, i);
  }

  /** Half the gap between the extremes, rounded down, has left one of the largest partitions. */
  ghost predicate HalfTheGapMoved(start: Schedulers, now: Schedulers, moved: nat) {
    && (forall hi, lo | IsMost(start, hi) && IsLeast(start, lo) ::
          2 * moved <= Load(start, hi) - Load(start, lo) <= 2 * moved + 1)
    && (exists d :: IsMost(start, d) && Load(now, d) == Load(start, d) - moved)
  }

  /** Whoever gained nodes has at most one more than anybody else. */
  ghost predicate NobodyOvertakes(start: Schedulers, now: Schedulers) {
    forall s, t | s in Active(now) && t in Active(now) && Load(now, s) > Load(start, s) ::
      Load(now, s) <= Load(now, t) + 1
  }

  /**
   One round moves half the gap between the extremes. With every move observed before the next,
   it lowers the sum of squares by two per node, and nobody who gained ends more than one ahead.
  */
  method ReBalance(m: SchedulerMaintainer) returns (moved: nat)
    requires m.Valid()
    modifies m
    ensures m.Valid() && m.annotations.Keys == old(m.annotations).Keys
    ensures Active(m.schedulers) == old(Active(m.schedulers))
    ensures moved > 0 <==> old(Unbalanced(m.schedulers))
    ensures moved == 0 ==> m.schedulers == old(m.schedulers)
    ensures Squares(m.schedulers) <= old(Squares(m.schedulers)) - 2 * moved
    ensures moved > 0 ==> HalfTheGapMoved(old(m.schedulers), m.schedulers, moved)
    ensures NobodyOvertakes(old(m.schedulers), m.schedulers)
    ensures forall s, hi, lo ::
      s in Active(m.schedulers) && old(IsMost(m.schedulers, hi)) && old(IsLeast(m.schedulers, lo)) ==>
      old(Load(m.schedulers, lo)) <= Load(m.schedulers, s) <= old(Load(m.schedulers, hi))
  {
    hide Refines, Squares, RoundOk, OneMoved, HalfTheGapMoved, NobodyOvertakes;
    ghost var start := m.schedulers;
    var extremes := m.MostAndLeastLoaded();
    NobodyGained(start);
    if extremes == None {
      return 0;
    }
    var e := extremes.value;
    if !(e.most > e.least * 2 && e.most > 1) {
      return 0;
    }
    MovesSomeNotAll(e.most, e.least);
    var names := m.SomeNodes(ToMove(e.most, e.least), e.mostName);
    RoundStarts(start, e);
    moved := 0;
    while moved < |names.value|
      invariant m.Valid() && m.annotations.Keys == old(m.annotations).Keys
      invariant moved <= |names.value| && RoundOk(start, e, m.schedulers, moved)
      invariant e.mostName in m.schedulers
      invariant forall j :: moved <= j < |names.value| ==> names.value[j] in m.schedulers[e.mostName].nodes
    {
      ghost var now := m.schedulers;
      RoundMeans(start, e, now, moved);
      var least := m.LeastLoaded();
      var t := least.value.0;
      GiverIsNotLeast(start, e, now, moved, t);
      ghost var annotations := m.annotations;
      InPartition(now, annotations, e.mostName, names.value[moved]);
      m.UpdateNode(names.value[moved], e.mostName, t);
      MoveChangesLoads(now, m.schedulers, annotations, names.value[moved], e.mostName, t);
      RoundStep(start, e, now, moved, t, m.schedulers);
      moved := moved + 1;
    }
    RoundMeans(start, e, m.schedulers, moved);
    RoundLevels(start, e, m.schedulers, moved);
  }

  lemma NobodyGained(start: Schedulers)
    ensures NobodyOvertakes(start, start)
  {
  }

  /** What a round of half the gap comes to. */
  lemma RoundLevels(start: Schedulers, e: Extremes, now: Schedulers, moved: nat)
    requires RoundOk(start, e, now, moved) && moved == ToMove(e.most, e.least) && e.most > 2 * e.least && e.most > 1
    requires IsMost(start, e.mostName) && e.most == Load(start, e.mostName)
    requires IsLeast(start, e.leastName) && e.least == Load(start, e.leastName)
    ensures HalfTheGapMoved(start, now, moved) && NobodyOvertakes(start, now)
  {
    hide Squares;
    MovesSomeNotAll(e.most, e.least);
  }

  lemma RoundStarts(start: Schedulers, e: Extremes)
    requires IsMost(start, e.mostName) && e.most == Load(start, e.mostName)
    requires IsLeast(start, e.leastName) && e.least == Load(start, e.leastName)
    ensures RoundOk(start, e, start, 0)
  {
  }

  lemma RoundMeans(start: Schedulers, e: Extremes, now: Schedulers, i: nat)
    requires RoundOk(start, e, now, i)
    ensures Active(now) == Active(start) && Active(now) != {} && now.Keys == start.Keys
    ensures forall s :: s in Active(now) ==> e.least <= Load(now, s) <= e.most
    ensures Squares(now) <= Squares(start) - 2 * i
    ensures e.mostName in Active(now)
  {
  }

  lemma InPartition(schedulers: Schedulers, annotations: map<NodeName, string>, s: string, n: NodeName)
    requires Refines(schedulers, annotations) && s in schedulers && n in schedulers[s].nodes
    ensures n in annotations && annotations[n] == s
  {
  }

  /** Rounds come to an end, and then the partitions are balanced. */
  method Settle(m: SchedulerMaintainer) returns (rounds: nat)
    requires m.Valid()
    modifies m
    ensures m.Valid() && !Unbalanced(m.schedulers)
    ensures Active(m.schedulers) == old(Active(m.schedulers))
    ensures Squares(m.schedulers) <= old(Squares(m.schedulers)) - 2 * rounds
    ensures rounds == 0 <==> old(!Unbalanced(m.schedulers))
    ensures rounds == 0 ==> m.schedulers == old(m.schedulers)
  {
    hide Refines, Squares, Unbalanced, Active;
    rounds := 0;
    var moved: nat := 1;
    while moved > 0
      invariant m.Valid() && Active(m.schedulers) == old(Active(m.schedulers))
      invariant Squares(m.schedulers) <= old(Squares(m.schedulers)) - 2 * rounds
      invariant moved == 0 ==> !Unbalanced(m.schedulers)
      invariant rounds == 0 ==> m.schedulers == old(m.schedulers)
      invariant rounds > 0 ==> old(Unbalanced(m.schedulers))
      decreases Squares(m.schedulers), moved
    {
      moved := ReBalance(m);
      SquaresNonNegative(m.schedulers);
      if moved > 0 {
        rounds := rounds + 1;
      }
    }
  }
}
