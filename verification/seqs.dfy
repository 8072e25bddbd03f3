/** The array operations the views apply to their lists: `filter`, and the
    summing `reduce` that starts from 0. Both walk the list front to back,
    so both are defined here on the last element. */
module Seqs {

  /** `s.filter(p)`: the elements of `s` that satisfy `p`, in their order. */
  function Filter<T>(p: T -> bool, s: seq<T>): (r: seq<T>)
    ensures |r| <= |s|
    ensures forall k | 0 <= k < |r| :: p(r[k])
    ensures |r| == |s| <==> forall i | 0 <= i < |s| :: p(s[i])
    ensures |r| == 0 <==> forall i | 0 <= i < |s| :: !p(s[i])
    decreases |s|
  {
    if |s| == 0 then []
    else
      var front := s[..|s| - 1];
      var rest := Filter(p, front);
      assert forall i | 0 <= i < |front| :: front[i] == s[i];
      if p(s[|s| - 1]) then rest + [s[|s| - 1]] else rest
  }

  /** The positions of `s` whose element satisfies `p`, in increasing order. */
  function Positions<T>(p: T -> bool, s: seq<T>): (idx: seq<int>)
    ensures forall k | 0 <= k < |idx| :: 0 <= idx[k] < |s| && p(s[idx[k]])
    ensures forall k, l | 0 <= k < l < |idx| :: idx[k] < idx[l]
    ensures forall i | 0 <= i < |s| && p(s[i]) :: i in idx
    decreases |s|
  {
    if |s| == 0 then []
    else
      var rest := Positions(p, s[..|s| - 1]);
      if p(s[|s| - 1]) then rest + [|s| - 1] else rest
  }

  /** `r` is the subsequence of `s` picked out by the increasing positions `idx`. */
  ghost predicate SelectedBy<T>(r: seq<T>, s: seq<T>, idx: seq<int>) {
    && |r| == |idx|
    && (forall k | 0 <= k < |idx| :: 0 <= idx[k] < |s| && r[k] == s[idx[k]])
    && (forall k, l | 0 <= k < l < |idx| :: idx[k] < idx[l])
  }

  lemma FilterStep<T>(p: T -> bool, s: seq<T>)
    requires |s| > 0
    ensures Filter(p, s) == Filter(p, s[..|s| - 1]) + (if p(s[|s| - 1]) then [s[|s| - 1]] else [])
  {
  }

  lemma PositionsStep<T>(p: T -> bool, s: seq<T>)
    requires |s| > 0
    ensures Positions(p, s) == Positions(p, s[..|s| - 1]) + (if p(s[|s| - 1]) then [|s| - 1] else [])
  {
  }

  /** Picking by positions survives appending one more element to the list
      and, optionally, that element and its position to the picks. */
  lemma PickExtends<T>(s: seq<T>, r: seq<T>, idx: seq<int>, taken: bool)
    requires |s| > 0 && |r| == |idx|
    requires forall k | 0 <= k < |idx| :: 0 <= idx[k] < |s| - 1 && r[k] == s[..|s| - 1][idx[k]]
    ensures var r' := r + (if taken then [s[|s| - 1]] else []);
      var idx' := idx + (if taken then [|s| - 1] else []);
      |r'| == |idx'| && forall k | 0 <= k < |r'| :: 0 <= idx'[k] < |s| && r'[k] == s[idx'[k]]
  {
  }

  lemma {:induction false} FilterPicksPositions<T>(p: T -> bool, s: seq<T>)
    ensures |Filter(p, s)| == |Positions(p, s)|
    ensures forall k | 0 <= k < |Filter(p, s)| :: Filter(p, s)[k] == s[Positions(p, s)[k]]
    decreases |s|
  {
    if |s| > 0 {
      var front := s[..|s| - 1];
      FilterPicksPositions(p, front);
      FilterStep(p, s);
      PositionsStep(p, s);
      PickExtends(s, Filter(p, front), Positions(p, front), p(s[|s| - 1]));
    }
  }

  /** `Filter` keeps exactly the positions that satisfy `p`, and keeps them in
      order: it neither reorders, duplicates nor invents elements. */
  lemma FilterSelectsPositions<T>(p: T -> bool, s: seq<T>)
    ensures SelectedBy(Filter(p, s), s, Positions(p, s))
  {
    FilterPicksPositions(p, s);
  }

  /** Every kept element comes from the list, and every element that
      satisfies `p` is kept. */
  lemma FilterMembership<T>(p: T -> bool, s: seq<T>)
    ensures forall k | 0 <= k < |Filter(p, s)| :: Filter(p, s)[k] in s
    ensures forall i | 0 <= i < |s| && p(s[i]) :: s[i] in Filter(p, s)
  {
    var r, idx := Filter(p, s), Positions(p, s);
    FilterSelectsPositions(p, s);
    forall i | 0 <= i < |s| && p(s[i]) ensures s[i] in r {
      var k :| 0 <= k < |idx| && idx[k] == i;
      assert r[k] == s[i];
    }
  }

  /** The positions of `s` whose element satisfies `p`, as a set. */
  ghost function PassingIndices<T>(p: T -> bool, s: seq<T>): set<int> {
    set i | 0 <= i < |s| && p(s[i])
  }

  /** `s.filter(p).length` counts the elements of `s` that satisfy `p`. */
  lemma {:induction false} FilterCountsPassing<T>(p: T -> bool, s: seq<T>)
    ensures |Filter(p, s)| == |PassingIndices(p, s)|
    decreases |s|
  {
    if |s| > 0 {
      var front, last := s[..|s| - 1], |s| - 1;
      FilterCountsPassing(p, front);
      FilterStep(p, s);
      var before := PassingIndices(p, front);
      assert last !in before;
      if p(s[last]) {
        assert PassingIndices(p, s) == before + {last};
      } else {
        assert PassingIndices(p, s) == before;
      }
    }
  }

  /** Filtering a concatenation filters each part. */
  lemma {:induction false} FilterConcat<T>(p: T -> bool, a: seq<T>, b: seq<T>)
    ensures Filter(p, a + b) == Filter(p, a) + Filter(p, b)
    decreases |b|
  {
    if |b| == 0 {
      assert a + b == a;
    } else {
      var b' := b[..|b| - 1];
      assert (a + b)[..|a + b| - 1] == a + b';
      assert (a + b)[|a + b| - 1] == b[|b| - 1];
      FilterConcat(p, a, b');
    }
  }

  /** Filtering by one test and then by another keeps exactly what the two
      tests together keep, in the same order. */
  lemma {:induction false} FilterTwice<T>(p: T -> bool, q: T -> bool, r: T -> bool, s: seq<T>)
    requires forall x :: r(x) == (p(x) && q(x))
    ensures Filter(q, Filter(p, s)) == Filter(r, s)
    decreases |s|
  {
    if |s| > 0 {
      var front := s[..|s| - 1];
      var x := s[|s| - 1];
      FilterTwice(p, q, r, front);
      FilterStep(p, s);
      FilterStep(r, s);
      FilterConcat(q, Filter(p, front), if p(x) then [x] else []);
      if p(x) {
        FilterStep(q, [x]);
        assert [x][..0] == [];
      }
    }
  }

  /** Filtering a list with one element in front. */
  lemma FilterPrepend<T>(p: T -> bool, x: T, s: seq<T>)
    ensures Filter(p, [x] + s) == (if p(x) then [x] else []) + Filter(p, s)
  {
    FilterConcat(p, [x], s);
    FilterStep(p, [x]);
    assert [x][..0] == [];
  }

  /** A filter that every element passes returns the list unchanged. */
  lemma {:induction false} FilterAll<T>(p: T -> bool, s: seq<T>)
    requires forall i | 0 <= i < |s| :: p(s[i])
    ensures Filter(p, s) == s
    decreases |s|
  {
    if |s| > 0 {
      var front := s[..|s| - 1];
      FilterAll(p, front);
      assert front + [s[|s| - 1]] == s;
    }
  }

  /** `s.reduce((sum, x) => sum + f(x), 0)`. */
  function SumBy<T>(f: T -> real, s: seq<T>): real
    decreases |s|
  {
    if |s| == 0 then 0.0 else SumBy(f, s[..|s| - 1]) + f(s[|s| - 1])
  }

  /** The sum over a concatenation is the sum of the parts. */
  lemma {:induction false} SumByAppend<T>(f: T -> real, a: seq<T>, b: seq<T>)
    ensures SumBy(f, a + b) == SumBy(f, a) + SumBy(f, b)
    decreases |b|
  {
    if |b| > 0 {
      var b' := b[..|b| - 1];
      assert (a + b)[..|a + b| - 1] == a + b';
      assert (a + b)[|a + b| - 1] == b[|b| - 1];
      SumByAppend(f, a, b');
    } else {
      assert a + b == a;
    }
  }

  /** Summing a pointwise-smaller function gives a smaller sum. */
  lemma {:induction false} SumByMonotone<T>(f: T -> real, g: T -> real, s: seq<T>)
    requires forall i | 0 <= i < |s| :: f(s[i]) <= g(s[i])
    ensures SumBy(f, s) <= SumBy(g, s)
    decreases |s|
  {
    if |s| > 0 {
      var front := s[..|s| - 1];
      assert forall i | 0 <= i < |front| :: front[i] == s[i];
      SumByMonotone(f, g, front);
    }
  }

  /** Scaling every term scales the sum. */
  lemma {:induction false} SumByScale<T>(f: T -> real, g: T -> real, c: real, s: seq<T>)
    requires forall i | 0 <= i < |s| :: g(s[i]) == c * f(s[i])
    ensures SumBy(g, s) == c * SumBy(f, s)
    decreases |s|
  {
    if |s| > 0 {
      var front := s[..|s| - 1];
      assert forall i | 0 <= i < |front| :: front[i] == s[i];
      SumByScale(f, g, c, front);
    }
  }
}
