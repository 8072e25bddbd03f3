/** The category list offered by the filter dropdowns of the list views:
    every non-empty category of the loaded list, once each, in the default
    sort order (a `Set` copied to an array and sorted). */
module Categories {
  import opened Text
  import Seqs

  /** Every earlier element sorts strictly before every later one; in
      particular no label occurs twice. */
  predicate StrictlySorted(s: seq<string>) {
    forall i, j | 0 <= i < j < |s| :: Before(s[i], s[j])
  }

  /** Adds `x` to a strictly sorted list, unless it is already there. */
  function Insert(x: string, s: seq<string>): (r: seq<string>)
    requires StrictlySorted(s)
    ensures StrictlySorted(r)
    ensures forall y :: y in r <==> y == x || y in s
    decreases |s|
  {
    if |s| == 0 then [x]
    else if x == s[0] then s
    else if Before(x, s[0]) then
      BeforeIsStrictTotalOrder();
      [x] + s
    else
      BeforeIsStrictTotalOrder();
      var rest := Insert(x, s[1..]);
      assert forall y | y in s[1..] :: Before(s[0], y) by {
        forall y | y in s[1..] ensures Before(s[0], y) {
          var j :| 0 <= j < |s[1..]| && s[1..][j] == y;
          assert s[j + 1] == y;
        }
      }
      [s[0]] + rest
  }

  /** The distinct labels of `xs`, sorted. */
  function SortDistinct(xs: seq<string>): (r: seq<string>)
    ensures StrictlySorted(r)
    ensures forall y :: y in r <==> y in xs
    decreases |xs|
  {
    if |xs| == 0 then []
    else
      var front := xs[..|xs| - 1];
      assert xs == front + [xs[|xs| - 1]];
      Insert(xs[|xs| - 1], SortDistinct(front))
  }

  function NonEmpty(c: string): bool {
    c != ""
  }

  /** The dropdown list built from the categories of a loaded list: empty
      categories are skipped, as the `if (x.category)` test skips them. */
  function Extract(labels: seq<string>): (r: seq<string>)
    ensures StrictlySorted(r)
    ensures forall c :: c in r <==> c != "" && c in labels
  {
    Seqs.FilterMembership(NonEmpty, labels);
    SortDistinct(Seqs.Filter(NonEmpty, labels))
  }

  /** The head of a strictly sorted list sorts before every other element. */
  lemma HeadFirst(a: seq<string>)
    requires StrictlySorted(a) && |a| > 0
    ensures forall y | y in a :: y == a[0] || Before(a[0], y)
  {
    forall y | y in a ensures y == a[0] || Before(a[0], y) {
      var j :| 0 <= j < |a| && a[j] == y;
    }
  }

  /** A strictly sorted list is determined by its elements. */
  lemma {:induction false} StrictlySortedUnique(a: seq<string>, b: seq<string>)
    requires StrictlySorted(a) && StrictlySorted(b)
    requires forall y :: y in a <==> y in b
    ensures a == b
    decreases |a|
  {
    assert |a| > 0 ==> a[0] in b;
    assert |b| > 0 ==> b[0] in a;
    if |a| > 0 && |b| > 0 {
      HeadFirst(a);
      HeadFirst(b);
      BeforeIsStrictTotalOrder();
      assert a[0] == b[0];
      forall y ensures y in a[1..] <==> y in b[1..] {
        assert y in a[1..] <==> y in a && y != a[0];
        assert y in b[1..] <==> y in b && y != b[0];
      }
      StrictlySortedUnique(a[1..], b[1..]);
      assert a == [a[0]] + a[1..] && b == [b[0]] + b[1..];
    }
  }

  /** The dropdown list depends only on which non-empty categories occur:
      not on their order, not on how often they repeat. */
  lemma ExtractDependsOnlyOnLabelSet(xs: seq<string>, ys: seq<string>)
    requires forall c :: c != "" ==> (c in xs <==> c in ys)
    ensures Extract(xs) == Extract(ys)
  {
    StrictlySortedUnique(Extract(xs), Extract(ys));
  }

  /** Extracting from an extracted list gives it back. */
  lemma ExtractIdempotent(xs: seq<string>)
    ensures Extract(Extract(xs)) == Extract(xs)
  {
    StrictlySortedUnique(Extract(Extract(xs)), Extract(xs));
  }
}
