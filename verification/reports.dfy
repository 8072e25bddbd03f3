/** The reports view: the chart data and top-N ranking derived from the
    monthly summary, the month-name table, the percentage guard, and the
    state the two summary requests update. */
module Reports {
  import opened Wrappers
  import opened ExpenseModel
  import Seqs

  // ---------------------------------------------------------------------------
  // Ranking categories by amount
  // ---------------------------------------------------------------------------

  /** Amounts never increase from front to back. */
  predicate ByAmountDescending(s: seq<CategoryAmount>) {
    forall i, j | 0 <= i < j < |s| :: s[i].amount >= s[j].amount
  }

  lemma PrependKeepsDescending(x: CategoryAmount, s: seq<CategoryAmount>)
    requires ByAmountDescending(s)
    requires forall y | y in s :: x.amount >= y.amount
    ensures ByAmountDescending([x] + s)
  {
    var r := [x] + s;
    forall i, j | 0 <= i < j < |r| ensures r[i].amount >= r[j].amount {
      if i == 0 {
        assert r[j] == s[j - 1];
      } else {
        assert r[i] == s[i - 1] && r[j] == s[j - 1];
      }
    }
  }

  /** Places `e` in front of the first entry whose amount does not exceed its
      own, so that `e` stays ahead of the entries it ties with. */
  function InsertByAmount(e: CategoryAmount, s: seq<CategoryAmount>): (r: seq<CategoryAmount>)
    requires ByAmountDescending(s)
    ensures ByAmountDescending(r)
    ensures forall x | x in r :: x == e || x in s
    decreases |s|
  {
    if |s| == 0 then [e]
    else
      var head, tail := s[0], s[1..];
      assert s == [head] + tail;
      assert forall y | y in tail :: head.amount >= y.amount by {
        forall y | y in tail ensures head.amount >= y.amount {
          var j :| 0 <= j < |tail| && tail[j] == y;
          assert y == s[j + 1];
        }
      }
      if head.amount <= e.amount then
        PrependKeepsDescending(e, s);
        [e] + s
      else
        var rest := InsertByAmount(e, tail);
        assert forall x | x in rest :: head.amount >= x.amount by {
          forall x | x in rest ensures head.amount >= x.amount {
          }
        }
        PrependKeepsDescending(head, rest);
        [head] + rest
  }

  /** Insertion adds exactly the one entry. */
  lemma {:induction false} InsertIsPermutation(e: CategoryAmount, s: seq<CategoryAmount>)
    requires ByAmountDescending(s)
    ensures multiset(InsertByAmount(e, s)) == multiset(s) + multiset{e}
    decreases |s|
  {
    if |s| > 0 {
      assert s == [s[0]] + s[1..];
      if s[0].amount > e.amount {
        InsertIsPermutation(e, s[1..]);
      }
    }
  }

  /** Inserting an entry whose category is new keeps the categories distinct. */
  lemma {:induction false} InsertKeepsDistinct(e: CategoryAmount, s: seq<CategoryAmount>)
    requires ByAmountDescending(s) && DistinctCategories(s)
    requires forall x | x in s :: x.category != e.category
    ensures DistinctCategories(InsertByAmount(e, s))
    decreases |s|
  {
    if |s| > 0 && s[0].amount > e.amount {
      assert s == [s[0]] + s[1..];
      InsertKeepsDistinct(e, s[1..]);
      var rest := InsertByAmount(e, s[1..]);
      forall x | x in rest ensures x.category != s[0].category {
        if x != e {
          var j :| 0 <= j < |s[1..]| && s[1..][j] == x;
          assert x == s[j + 1];
        }
      }
    }
  }

  /** The entries reordered by amount, largest first; entries with equal
      amounts keep their order (the array sort is stable). */
  function SortByAmount(s: seq<CategoryAmount>): (r: seq<CategoryAmount>)
    ensures ByAmountDescending(r)
    decreases |s|
  {
    if |s| == 0 then []
    else
      assert s == [s[0]] + s[1..];
      InsertByAmount(s[0], SortByAmount(s[1..]))
  }

  /** Sorting only reorders: every entry is kept, as often as it occurs. */
  lemma {:induction false} SortIsPermutation(s: seq<CategoryAmount>)
    ensures multiset(SortByAmount(s)) == multiset(s)
    decreases |s|
  {
    if |s| > 0 {
      assert s == [s[0]] + s[1..];
      SortIsPermutation(s[1..]);
      InsertIsPermutation(s[0], SortByAmount(s[1..]));
    }
  }

  /** Tells the entries of amount `a` apart from the rest. */
  function WithAmount(a: real): CategoryAmount -> bool {
    (x: CategoryAmount) => x.amount == a
  }

  lemma InsertAtFront(e: CategoryAmount, s: seq<CategoryAmount>)
    requires ByAmountDescending(s)
    requires |s| == 0 || s[0].amount <= e.amount
    ensures InsertByAmount(e, s) == [e] + s
  {
  }

  lemma InsertPassesHead(e: CategoryAmount, s: seq<CategoryAmount>)
    requires ByAmountDescending(s)
    requires |s| > 0 && s[0].amount > e.amount
    ensures ByAmountDescending(s[1..])
    ensures InsertByAmount(e, s) == [s[0]] + InsertByAmount(e, s[1..])
    ensures s == [s[0]] + s[1..]
  {
  }

  /** The entries of amount `a` that come after `head`, with `head` itself
      in front when it has that amount. */
  lemma FilterPastHead(a: real, e: CategoryAmount, head: CategoryAmount, rest: seq<CategoryAmount>, tail: seq<CategoryAmount>)
    requires head.amount > e.amount
    requires Seqs.Filter(WithAmount(a), rest) ==
      (if e.amount == a then [e] else []) + Seqs.Filter(WithAmount(a), tail)
    ensures Seqs.Filter(WithAmount(a), [head] + rest) ==
      (if e.amount == a then [e] else []) + Seqs.Filter(WithAmount(a), [head] + tail)
  {
    var p := WithAmount(a);
    Seqs.FilterPrepend(p, head, rest);
    Seqs.FilterPrepend(p, head, tail);
    var theirs: seq<CategoryAmount> := if p(head) then [head] else [];
    if e.amount == a {
      assert theirs == [];
      assert Seqs.Filter(p, [head] + rest) == Seqs.Filter(p, rest);
      assert Seqs.Filter(p, [head] + tail) == Seqs.Filter(p, tail);
    } else {
      assert Seqs.Filter(p, rest) == Seqs.Filter(p, tail);
    }
  }

  /** Insertion puts `e` ahead of every entry with the same amount. */
  lemma {:induction false} InsertIsStable(e: CategoryAmount, s: seq<CategoryAmount>, a: real)
    requires ByAmountDescending(s)
    ensures Seqs.Filter(WithAmount(a), InsertByAmount(e, s)) ==
      (if e.amount == a then [e] else []) + Seqs.Filter(WithAmount(a), s)
    decreases |s|
  {
    if |s| == 0 || s[0].amount <= e.amount {
      InsertAtFront(e, s);
      Seqs.FilterPrepend(WithAmount(a), e, s);
    } else {
      InsertPassesHead(e, s);
      InsertIsStable(e, s[1..], a);
      FilterPastHead(a, e, s[0], InsertByAmount(e, s[1..]), s[1..]);
    }
  }

  /** The sort is stable: for every amount, the entries with that amount
      appear in the sorted list in the same order as in the input. */
  lemma {:induction false} SortIsStable(s: seq<CategoryAmount>, a: real)
    ensures Seqs.Filter(WithAmount(a), SortByAmount(s)) == Seqs.Filter(WithAmount(a), s)
    decreases |s|
  {
    if |s| > 0 {
      assert s == [s[0]] + s[1..];
      SortIsStable(s[1..], a);
      InsertIsStable(s[0], SortByAmount(s[1..]), a);
      Seqs.FilterPrepend(WithAmount(a), s[0], s[1..]);
    }
  }

  lemma {:induction false} SortKeepsDistinct(s: seq<CategoryAmount>)
    requires DistinctCategories(s)
    ensures DistinctCategories(SortByAmount(s))
    decreases |s|
  {
    if |s| > 0 {
      assert s == [s[0]] + s[1..];
      SortKeepsDistinct(s[1..]);
      var rest := SortByAmount(s[1..]);
      SortIsPermutation(s[1..]);
      forall x | x in rest ensures x.category != s[0].category {
        assert x in multiset(rest);
        var j :| 0 <= j < |s[1..]| && s[1..][j] == x;
        assert x == s[j + 1];
      }
      InsertKeepsDistinct(s[0], rest);
    }
  }

  /** Where `slice(0, limit)` stops: a negative limit counts back from the end. */
  function SliceEnd(n: nat, limit: int): (k: nat)
    ensures k <= n
  {
    if limit < 0 then (if n + limit > 0 then n + limit else 0)
    else if limit < n then limit
    else n
  }

  /** In a list sorted largest first, a prefix outranks everything left out. */
  lemma PrefixDominates(sorted: seq<CategoryAmount>, k: nat)
    requires ByAmountDescending(sorted) && k <= |sorted|
    ensures forall e, x | e in sorted && e !in sorted[..k] && x in sorted[..k] :: e.amount <= x.amount
  {
    forall e, x | e in sorted && e !in sorted[..k] && x in sorted[..k] ensures e.amount <= x.amount {
      var j :| 0 <= j < |sorted| && sorted[j] == e;
      var i :| 0 <= i < k && sorted[..k][i] == x;
      assert j >= k;
    }
  }

  lemma SameElements(sorted: seq<CategoryAmount>, s: seq<CategoryAmount>)
    requires multiset(sorted) == multiset(s)
    ensures forall x :: x in sorted <==> x in s
  {
    forall x ensures x in sorted <==> x in s {
      assert x in sorted <==> x in multiset(sorted);
      assert x in s <==> x in multiset(s);
    }
  }

  /** The `limit` largest categories of a summary, largest first. */
  function TopCategories(byCategory: seq<CategoryAmount>, limit: int): (r: seq<CategoryAmount>)
    requires DistinctCategories(byCategory)
    ensures limit >= 0 ==> |r| == if limit < |byCategory| then limit else |byCategory|
    ensures limit < 0 ==> |r| == if |byCategory| + limit > 0 then |byCategory| + limit else 0
    ensures ByAmountDescending(r)
    ensures forall x | x in r :: x in byCategory
    ensures DistinctCategories(r)
    ensures forall e, x | e in byCategory && e !in r && x in r :: e.amount <= x.amount
  {
    var sorted := SortByAmount(byCategory);
    SortIsPermutation(byCategory);
    SortKeepsDistinct(byCategory);
    SameElements(sorted, byCategory);
    assert |sorted| == |multiset(sorted)| == |multiset(byCategory)| == |byCategory|;
    var k := SliceEnd(|sorted|, limit);
    PrefixDominates(sorted, k);
    sorted[..k]
  }

  /** The ranking the view shows when no limit is given. */
  const DefaultLimit := 5

  /** `getTopCategories()` with the default limit: the five largest
      categories, or all of them when there are fewer. */
  function DefaultTopCategories(byCategory: seq<CategoryAmount>): (r: seq<CategoryAmount>)
    requires DistinctCategories(byCategory)
    ensures |r| == if |byCategory| < 5 then |byCategory| else 5
    ensures ByAmountDescending(r)
    ensures forall x | x in r :: x in byCategory
    ensures DistinctCategories(r)
    ensures forall e, x | e in byCategory && e !in r && x in r :: e.amount <= x.amount
  {
    TopCategories(byCategory, DefaultLimit)
  }

  // ---------------------------------------------------------------------------
  // Chart data
  // ---------------------------------------------------------------------------

  /** The amount listed for `key`, if any. */
  function Lookup(entries: seq<CategoryAmount>, key: string): Option<real>
    decreases |entries|
  {
    if |entries| == 0 then None
    else if entries[0].category == key then Some(entries[0].amount)
    else Lookup(entries[1..], key)
  }

  lemma {:induction false} LookupFindsEntry(entries: seq<CategoryAmount>, i: int)
    requires DistinctCategories(entries) && 0 <= i < |entries|
    ensures Lookup(entries, entries[i].category) == Some(entries[i].amount)
    decreases |entries|
  {
    if i > 0 {
      assert entries[0].category != entries[i].category;
      LookupFindsEntry(entries[1..], i - 1);
    }
  }

  datatype Chart = Chart(labels: seq<string>, values: seq<real>)

  /** The chart series: one label per category, and at each position the
      amount of that label's category. */
  function ChartData(s: ExpensesSummary): (c: Chart)
    ensures |c.labels| == |c.values| == |s.byCategory|
    ensures forall e | e in s.byCategory :: e.category in c.labels
    ensures DistinctCategories(s.byCategory) ==>
      forall i, j | 0 <= i < j < |c.labels| :: c.labels[i] != c.labels[j]
    ensures DistinctCategories(s.byCategory) ==>
      forall i | 0 <= i < |c.labels| :: Lookup(s.byCategory, c.labels[i]) == Some(c.values[i])
  {
    var entries := s.byCategory;
    var c := Chart(seq(|entries|, i requires 0 <= i < |entries| => entries[i].category),
                   seq(|entries|, i requires 0 <= i < |entries| => entries[i].amount));
    assert forall e | e in entries :: e.category in c.labels by {
      forall e | e in entries ensures e.category in c.labels {
        var i :| 0 <= i < |entries| && entries[i] == e;
        assert c.labels[i] == e.category;
      }
    }
    assert DistinctCategories(entries) ==>
      forall i | 0 <= i < |c.labels| :: Lookup(entries, c.labels[i]) == Some(c.values[i]) by {
      if DistinctCategories(entries) {
        forall i | 0 <= i < |c.labels| ensures Lookup(entries, c.labels[i]) == Some(c.values[i]) {
          LookupFindsEntry(entries, i);
        }
      }
    }
    c
  }

  // ---------------------------------------------------------------------------
  // Month names and percentages
  // ---------------------------------------------------------------------------

  const MonthNames := ["January", "February", "March", "April", "May", "June",
                       "July", "August", "September", "October", "November", "December"]

  /** The English name of month `m`, counting from 1; no name outside 1..12
      (the array read is then undefined). */
  function MonthName(m: int): (r: Option<string>)
    ensures r.Some? <==> 1 <= m <= 12
    ensures m == 1 ==> r == Some("January")
    ensures m == 12 ==> r == Some("December")
  {
    if 1 <= m <= 12 then Some(MonthNames[m - 1]) else None
  }

  /** No two months share a name. */
  lemma MonthNameInjective(a: int, b: int)
    requires 1 <= a <= 12 && 1 <= b <= 12
    requires MonthName(a) == MonthName(b)
    ensures a == b
  {
  }

  /** A percentage as the view shows it: a fixed text, or a ratio (times 100)
      that is then printed with one decimal. */
  datatype Percentage = Literal(text: string) | OneDecimal(percent: real)

  /** `value` as a percentage of `total`; a zero total shows "0%". */
  function FormatPercentage(value: real, total: real): (r: Percentage)
    ensures total == 0.0 <==> r == Literal("0%")
    ensures total != 0.0 ==> r.OneDecimal? && r.percent * total == value * 100.0
  {
    if total == 0.0 then Literal("0%") else OneDecimal(value / total * 100.0)
  }

  // ---------------------------------------------------------------------------
  // View state
  // ---------------------------------------------------------------------------

  datatype View = View(
    selectedYear: int,
    selectedMonth: int,
    monthly: ExpensesSummary,
    yearly: ExpensesSummary,
    loading: bool,
    error: Option<string>,
    chart: Chart)

  /** The view as constructed, for the year and month of the current date. */
  function InitialView(year: int, month: int): (v: View)
    ensures v.selectedYear == year && v.selectedMonth == month
    ensures v.monthly == EmptySummary && v.yearly == EmptySummary
    ensures v.loading && v.error == None
    ensures v.chart.labels == [] && v.chart.values == []
    ensures ChartInStep(v)
  {
    View(year, month, EmptySummary, EmptySummary, true, None, Chart([], []))
  }

  const MonthlyFailedText := "Failed to load monthly summary"
  const YearlyFailedText := "Failed to load yearly summary"

  /** The chart shows the monthly summary held by the view. */
  predicate ChartInStep(v: View) {
    v.chart == ChartData(v.monthly)
  }

  /** Both summary requests start, for the selected period. */
  function StartLoad(v: View): (w: View)
    ensures w.loading && w.error == None
    ensures w.monthly == v.monthly && w.yearly == v.yearly && w.chart == v.chart
    ensures w.selectedYear == v.selectedYear && w.selectedMonth == v.selectedMonth
  {
    v.(loading := true, error := None)
  }

  /** A new year or month was picked: both summaries are requested again. */
  function ChangePeriod(v: View, year: int, month: int): (w: View)
    ensures w.selectedYear == year && w.selectedMonth == month
    ensures w.loading && w.error == None && w.chart == v.chart
    ensures w.monthly == v.monthly && w.yearly == v.yearly
  {
    StartLoad(v.(selectedYear := year, selectedMonth := month))
  }

  /** The monthly summary resolved. It never clears the loading flag: only
      the yearly response does. */
  function OnMonthlyLoaded(v: View, outcome: Response<ExpensesSummary>): (w: View)
    ensures w.loading == v.loading && w.yearly == v.yearly
    ensures w.selectedYear == v.selectedYear && w.selectedMonth == v.selectedMonth
    ensures outcome.Success? ==> w.monthly == outcome.value && w.chart == ChartData(outcome.value) && w.error == v.error
    ensures outcome.Failure? ==> w.monthly == v.monthly && w.chart == v.chart && w.error == Some(MonthlyFailedText)
  {
    match outcome
    case Success(data) => v.(monthly := data, chart := ChartData(data))
    case Failure => v.(error := Some(MonthlyFailedText))
  }

  /** The yearly summary resolved; either way the loading flag drops. */
  function OnYearlyLoaded(v: View, outcome: Response<ExpensesSummary>): (w: View)
    ensures !w.loading && w.monthly == v.monthly && w.chart == v.chart
    ensures w.selectedYear == v.selectedYear && w.selectedMonth == v.selectedMonth
    ensures outcome.Success? ==> w.yearly == outcome.value && w.error == v.error
    ensures outcome.Failure? ==> w.yearly == v.yearly && w.error == Some(YearlyFailedText)
  {
    match outcome
    case Success(data) => v.(yearly := data, loading := false)
    case Failure => v.(error := Some(YearlyFailedText), loading := false)
  }

  /** The chart starts in step with the (empty) monthly summary and every
      transition keeps it so, whichever response arrives first. */
  lemma ChartStaysInStep(v: View, year: int, month: int, outcome: Response<ExpensesSummary>)
    ensures ChartInStep(v) ==> ChartInStep(StartLoad(v)) && ChartInStep(ChangePeriod(v, year, month))
    ensures ChartInStep(v) ==> ChartInStep(OnMonthlyLoaded(v, outcome)) && ChartInStep(OnYearlyLoaded(v, outcome))
    ensures outcome.Success? ==> ChartInStep(OnMonthlyLoaded(v, outcome))
  {
  }

  /** The loading flag can be down while the monthly summary is still
      outstanding: the yearly response alone clears it. */
  lemma YearlyResponseAloneClearsLoading(v: View, outcome: Response<ExpensesSummary>)
    ensures !OnYearlyLoaded(StartLoad(v), outcome).loading
    ensures OnMonthlyLoaded(StartLoad(v), outcome).loading
  {
  }
}
