/** Sums of a weight over a finite set, used for node loads and partition sizes. */
module SetSum {

  /** The total weight of the elements of `s`. */
  ghost function Sum<T(!new)>(s: set<T>, w: T -> int): int
    decreases |s|
  {
    if s == {} then 0 else
      var x :| x in s;
      w(x) + Sum(s - {x}, w)
  }

  /** Any element may be split off, not only the one the definition picks. */
  lemma {:induction false} SumRemove<T(!new)>(s: set<T>, x: T, w: T -> int)
    requires x in s
    ensures Sum(s, w) == w(x) + Sum(s - {x}, w)
    decreases |s|
  {
    var y :| y in s && Sum(s, w) == w(y) + Sum(s - {y}, w);
    if y != x {
      SumRemove(s - {y}, x, w);
      SumRemove(s - {x}, y, w);
      assert s - {y} - {x} == s - {x} - {y};
    }
  }

  lemma SumAdd<T(!new)>(s: set<T>, x: T, w: T -> int)
    requires x !in s
    ensures Sum(s + {x}, w) == Sum(s, w) + w(x)
  {
    SumRemove(s + {x}, x, w);
    assert s + {x} - {x} == s;
  }

  lemma {:induction false} SumUnion<T(!new)>(a: set<T>, b: set<T>, w: T -> int)
    requires a !! b
    ensures Sum(a + b, w) == Sum(a, w) + Sum(b, w)
    decreases |b|
  {
    if b == {} {
      assert a + b == a;
    } else {
      var x :| x in b;
      SumUnion(a, b - {x}, w);
      assert a + b - {x} == a + (b - {x});
      SumRemove(a + b, x, w);
      SumRemove(b, x, w);
    }
  }

  lemma {:induction false} SumNonNegative<T(!new)>(s: set<T>, w: T -> int)
    requires forall x :: x in s ==> w(x) >= 0
    ensures Sum(s, w) >= 0
    decreases |s|
  {
    if s != {} {
      var x :| x in s;
      SumNonNegative(s - {x}, w);
      SumRemove(s, x, w);
    }
  }

  /** Removing a part of the set takes away exactly its weight. */
  lemma SumMinus<T(!new)>(s: set<T>, part: set<T>, w: T -> int)
    requires part <= s
    ensures Sum(s - part, w) == Sum(s, w) - Sum(part, w)
  {
    SumUnion(s - part, part, w);
    assert s - part + part == s;
  }

  lemma SumMonotone<T(!new)>(a: set<T>, b: set<T>, w: T -> int)
    requires a <= b
    requires forall x :: x in b ==> w(x) >= 0
    ensures Sum(a, w) <= Sum(b, w)
  {
    SumMinus(b, a, w);
    SumNonNegative(b - a, w);
  }

  /** Weights that agree on the set give the same sum. */
  lemma {:induction false} SumSame<T(!new)>(s: set<T>, v: T -> int, w: T -> int)
    requires forall x :: x in s ==> v(x) == w(x)
    ensures Sum(s, v) == Sum(s, w)
    decreases |s|
  {
    if s != {} {
      var x :| x in s;
      SumSame(s - {x}, v, w);
      SumRemove(s, x, v);
      SumRemove(s, x, w);
    }
  }
}
