/** The subscriptions list view: its filters, the figures it derives from the
    filtered list, the records it sends back, and its load/reload state. */
module Subscriptions {
  import opened Wrappers
  import opened ExpenseModel
  import opened Text
  import Seqs
  import Categories

  // ---------------------------------------------------------------------------
  // Categories for the dropdown
  // ---------------------------------------------------------------------------

  function CategoryLabels(subs: seq<Subscription>): (r: seq<string>)
    ensures |r| == |subs|
    ensures forall i | 0 <= i < |subs| :: r[i] == subs[i].expense.category
  {
    seq(|subs|, i requires 0 <= i < |subs| => subs[i].expense.category)
  }

  /** The dropdown list: each non-empty category of the loaded list, once,
      in sorted order. */
  function ExtractCategories(subs: seq<Subscription>): (r: seq<string>)
    ensures Categories.StrictlySorted(r)
    ensures forall c :: c in r <==> c != "" && exists i | 0 <= i < |subs| :: subs[i].expense.category == c
  {
    var labels := CategoryLabels(subs);
    assert forall c :: c in labels <==> exists i | 0 <= i < |subs| :: subs[i].expense.category == c by {
      forall c | c in labels ensures exists i | 0 <= i < |subs| :: subs[i].expense.category == c {
        var i :| 0 <= i < |labels| && labels[i] == c;
      }
    }
    Categories.Extract(labels)
  }

  // ---------------------------------------------------------------------------
  // Filtering
  // ---------------------------------------------------------------------------

  /** The filter controls of the view. */
  datatype Filters = Filters(
    showActive: bool,
    showInactive: bool,
    selectedCategory: string,
    searchTerm: string)

  /** The controls as the view starts: active subscriptions only, every
      category, no search. */
  const DefaultFilters := Filters(true, false, "all", "")

  const AllCategories := "all"

  /** Stage one: an active subscription needs `showActive`, an inactive one
      needs `showInactive`. */
  predicate PassesActive(f: Filters, s: Subscription) {
    if s.isActive then f.showActive else f.showInactive
  }

  /** Stage two: "all" lets every category through; any other choice must
      match the category exactly. */
  predicate PassesCategory(f: Filters, s: Subscription) {
    f.selectedCategory == AllCategories || s.expense.category == f.selectedCategory
  }

  /** The search term, lower-cased, occurs in the lower-cased name or notes. */
  predicate MatchesSearch(term: string, s: Subscription) {
    var t := ToLower(term);
    || Includes(ToLower(s.expense.name), t)
    || (s.expense.notes.Some? && Includes(ToLower(s.expense.notes.value), t))
  }

  /** Stage three: an empty search term lets everything through. */
  predicate PassesSearch(f: Filters, s: Subscription) {
    f.searchTerm == "" || MatchesSearch(f.searchTerm, s)
  }

  /** The three stages in order: the active flag, the category, the search. */
  function Matches(f: Filters, s: Subscription): (ok: bool)
    ensures ok <==>
      && (s.isActive ==> f.showActive)
      && (!s.isActive ==> f.showInactive)
      && (f.selectedCategory == "all" || s.expense.category == f.selectedCategory)
      && (f.searchTerm == ""
          || (exists i :: OccursAt(ToLower(s.expense.name), ToLower(f.searchTerm), i))
          || (s.expense.notes.Some?
              && exists i :: OccursAt(ToLower(s.expense.notes.value), ToLower(f.searchTerm), i)))
  {
    PassesActive(f, s) && PassesCategory(f, s) && PassesSearch(f, s)
  }

  function ActiveStage(f: Filters): Subscription -> bool {
    s => PassesActive(f, s)
  }

  function CategoryStage(f: Filters): Subscription -> bool {
    s => PassesCategory(f, s)
  }

  function SearchStage(f: Filters): Subscription -> bool {
    s => PassesSearch(f, s)
  }

  function Keep(f: Filters): Subscription -> bool {
    s => Matches(f, s)
  }

  /** The displayed list: the subscriptions that pass all three stages, taken
      at exactly the positions where they pass, in their original order. */
  function ApplyFilters(f: Filters, subs: seq<Subscription>): (r: seq<Subscription>)
    ensures |r| <= |subs|
    ensures forall k | 0 <= k < |r| :: r[k] in subs && Matches(f, r[k])
    ensures forall i | 0 <= i < |subs| && Matches(f, subs[i]) :: subs[i] in r
    ensures Seqs.SelectedBy(r, subs, Seqs.Positions(Keep(f), subs))
    ensures forall i | 0 <= i < |subs| :: Matches(f, subs[i]) <==> i in Seqs.Positions(Keep(f), subs)
  {
    Seqs.FilterSelectsPositions(Keep(f), subs);
    Seqs.FilterMembership(Keep(f), subs);
    Seqs.Filter(Keep(f), subs)
  }

  /** Running the three stages one after another, each on what the previous
      one kept, shows the same list as the single combined pass. */
  lemma {:induction false} StagesInOrder(f: Filters, subs: seq<Subscription>)
    ensures Seqs.Filter(SearchStage(f), Seqs.Filter(CategoryStage(f), Seqs.Filter(ActiveStage(f), subs)))
      == ApplyFilters(f, subs)
  {
    var activeAndCategory := s => PassesActive(f, s) && PassesCategory(f, s);
    Seqs.FilterTwice(ActiveStage(f), CategoryStage(f), activeAndCategory, subs);
    Seqs.FilterTwice(activeAndCategory, SearchStage(f), Keep(f), subs);
  }

  /** With the initial controls exactly the active subscriptions are shown. */
  lemma DefaultFiltersShowActiveOnly(subs: seq<Subscription>)
    ensures forall s :: s in ApplyFilters(DefaultFilters, subs) <==> s in subs && s.isActive
  {
    forall s | s in subs && s.isActive ensures s in ApplyFilters(DefaultFilters, subs) {
      var i :| 0 <= i < |subs| && subs[i] == s;
    }
    forall s | s in ApplyFilters(DefaultFilters, subs) ensures s in subs && s.isActive {
      var r := ApplyFilters(DefaultFilters, subs);
      var k :| 0 <= k < |r| && r[k] == s;
    }
  }

  /** Searching ignores the case of the search term. */
  lemma SearchIgnoresTermCase(f: Filters, s: Subscription)
    ensures Matches(f, s) <==> Matches(f.(searchTerm := ToLower(f.searchTerm)), s)
  {
    ToLowerIdempotent(f.searchTerm);
  }

  // ---------------------------------------------------------------------------
  // Monthly cost
  // ---------------------------------------------------------------------------

  /** What one subscription costs per month: a monthly one its amount, a
      yearly one a twelfth of it. */
  function MonthlyCost(s: Subscription): (r: real)
    ensures s.billingCycle == BilledMonthly ==> r == BilledAmount(s)
    ensures s.billingCycle == BilledYearly ==> 12.0 * r == BilledAmount(s)
  {
    var amount := AmountValue(s.expense.amount);
    if s.billingCycle == BilledYearly then amount / 12.0 else amount
  }

  function BilledAmount(s: Subscription): real {
    AmountValue(s.expense.amount)
  }

  /** The sum of the amounts as billed, each counted once whatever its cycle. */
  function BilledTotal(subs: seq<Subscription>): real {
    Seqs.SumBy(BilledAmount, subs)
  }

  lemma CostSumBounds(subs: seq<Subscription>)
    ensures (forall i | 0 <= i < |subs| :: BilledAmount(subs[i]) >= 0.0) ==>
      Seqs.SumBy(BilledAmount, subs) / 12.0 <= Seqs.SumBy(MonthlyCost, subs) <= Seqs.SumBy(BilledAmount, subs)
  {
    if forall i | 0 <= i < |subs| :: BilledAmount(subs[i]) >= 0.0 {
      var twelfth := (s: Subscription) => BilledAmount(s) / 12.0;
      Seqs.SumByMonotone(MonthlyCost, BilledAmount, subs);
      Seqs.SumByMonotone(twelfth, MonthlyCost, subs);
      Seqs.SumByScale(BilledAmount, twelfth, 1.0 / 12.0, subs);
    }
  }

  lemma MonthlyCostSum(subs: seq<Subscription>)
    ensures (forall i | 0 <= i < |subs| :: subs[i].billingCycle == BilledMonthly) ==>
      Seqs.SumBy(MonthlyCost, subs) == Seqs.SumBy(BilledAmount, subs)
  {
    if forall i | 0 <= i < |subs| :: subs[i].billingCycle == BilledMonthly {
      Seqs.SumByMonotone(MonthlyCost, BilledAmount, subs);
      Seqs.SumByMonotone(BilledAmount, MonthlyCost, subs);
    }
  }

  /** The monthly-equivalent total of a (filtered) list. With non-negative
      amounts it lies between a twelfth of the billed total and the billed
      total; when nothing is billed yearly it is the billed total. */
  function MonthlyTotal(subs: seq<Subscription>): (r: real)
    ensures (forall i | 0 <= i < |subs| :: BilledAmount(subs[i]) >= 0.0) ==>
      BilledTotal(subs) / 12.0 <= r <= BilledTotal(subs)
    ensures (forall i | 0 <= i < |subs| :: subs[i].billingCycle == BilledMonthly) ==> r == BilledTotal(subs)
  {
    CostSumBounds(subs);
    MonthlyCostSum(subs);
    Seqs.SumBy(MonthlyCost, subs)
  }

  /** The total over a list is the total of its parts. */
  lemma MonthlyTotalSplits(a: seq<Subscription>, b: seq<Subscription>)
    ensures MonthlyTotal(a + b) == MonthlyTotal(a) + MonthlyTotal(b)
  {
    Seqs.SumByAppend(MonthlyCost, a, b);
  }

  predicate IsMonthly(s: Subscription) {
    s.billingCycle == BilledMonthly
  }

  predicate IsYearly(s: Subscription) {
    s.billingCycle == BilledYearly
  }

  /** The monthly total is everything billed monthly plus a twelfth of
      everything billed yearly. */
  lemma {:induction false} MonthlyTotalByCycle(subs: seq<Subscription>)
    ensures MonthlyTotal(subs)
      == BilledTotal(Seqs.Filter(IsMonthly, subs)) + BilledTotal(Seqs.Filter(IsYearly, subs)) / 12.0
    decreases |subs|
  {
    if |subs| > 0 {
      var front := subs[..|subs| - 1];
      var x := subs[|subs| - 1];
      MonthlyTotalByCycle(front);
      Seqs.FilterStep(IsMonthly, subs);
      Seqs.FilterStep(IsYearly, subs);
      Seqs.SumByAppend(BilledAmount, Seqs.Filter(IsMonthly, front), if IsMonthly(x) then [x] else []);
      Seqs.SumByAppend(BilledAmount, Seqs.Filter(IsYearly, front), if IsYearly(x) then [x] else []);
      assert [x][..0] == [];
    }
  }

  /** A yearly subscription of 1200 adds 100 to the monthly total; a monthly
      one of 50 adds 50; one whose amount is not a number adds nothing. */
  lemma MonthlyTotalContributions(subs: seq<Subscription>, s: Subscription)
    ensures s.expense.amount == Num(1200.0) && s.billingCycle == BilledYearly ==>
      MonthlyTotal(subs + [s]) == MonthlyTotal(subs) + 100.0
    ensures s.expense.amount == Num(50.0) && s.billingCycle == BilledMonthly ==>
      MonthlyTotal(subs + [s]) == MonthlyTotal(subs) + 50.0
    ensures s.expense.amount == NotANumber ==> MonthlyTotal(subs + [s]) == MonthlyTotal(subs)
  {
    MonthlyTotalSplits(subs, [s]);
    assert [s][..0] == [];
  }

  // ---------------------------------------------------------------------------
  // Labels and badges
  // ---------------------------------------------------------------------------

  function DayWord(n: nat): string {
    if n == 1 then " day" else " days"
  }

  /** The four number-word suffixes, spelled out. */
  lemma Suffixes()
    ensures DayWord(1) + " left" == " day left" && DayWord(1) + " overdue" == " day overdue"
    ensures forall n: nat | n != 1 :: DayWord(n) + " left" == " days left" && DayWord(n) + " overdue" == " days overdue"
  {
  }

  lemma SingularLabels()
    ensures NatToString(1) + (DayWord(1) + " left") == "1 day left"
    ensures NatToString(1) + (DayWord(1) + " overdue") == "1 day overdue"
  {
    assert NatToString(1) == "1";
  }

  /** A label that starts with a numeral is not "Due today". */
  lemma NumeralIsNotDueToday(n: nat, suffix: string)
    ensures NatToString(n) + suffix != "Due today"
  {
    var s := NatToString(n) + suffix;
    assert s[0] == NatToString(n)[0];
    assert IsDigit(s[0]);
    assert "Due today"[0] == 'D';
  }

  /** The payment label for a whole number of days until the payment date
      (negative once the date has passed). */
  function DaysLabel(d: int): (r: string)
    ensures d == 0 <==> r == "Due today"
    ensures d == 1 ==> r == "1 day left"
    ensures d == -1 ==> r == "1 day overdue"
    ensures d > 1 ==> EndsWith(r, " days left")
    ensures d < -1 ==> EndsWith(r, " days overdue")
    ensures d > 0 ==> EndsWith(r, " left")
    ensures d < 0 ==> EndsWith(r, " overdue")
  {
    if d == 0 then "Due today"
    else if d > 0 then
      EndsWithAppended(NatToString(d), DayWord(d), " left");
      NumeralIsNotDueToday(d, DayWord(d) + " left");
      Suffixes();
      SingularLabels();
      NatToString(d) + (DayWord(d) + " left")
    else
      EndsWithAppended(NatToString(-d), DayWord(-d), " overdue");
      NumeralIsNotDueToday(-d, DayWord(-d) + " overdue");
      Suffixes();
      SingularLabels();
      NatToString(-d) + (DayWord(-d) + " overdue")
  }

  /** The length of the longest all-digit prefix of `s`. */
  function DigitPrefixLength(s: string): (k: nat)
    ensures k <= |s| && AllDigits(s[..k])
    ensures k < |s| ==> !IsDigit(s[k])
    decreases |s|
  {
    if |s| == 0 || !IsDigit(s[0]) then 0 else 1 + DigitPrefixLength(s[1..])
  }

  lemma {:induction false} DigitPrefixOfNumeral(digits: string, rest: string)
    requires AllDigits(digits) && |rest| > 0 && !IsDigit(rest[0])
    ensures DigitPrefixLength(digits + rest) == |digits|
    decreases |digits|
  {
    if |digits| > 0 {
      assert (digits + rest)[1..] == digits[1..] + rest;
      DigitPrefixOfNumeral(digits[1..], rest);
    }
  }

  /** Reads a payment label back into the day difference it shows. The count
      must be written without leading zeros; only the singular "day" is
      accepted after 1 and only the plural "days" after any larger count. */
  function ParseDaysLabel(s: string): Option<int> {
    var k := DigitPrefixLength(s);
    if k == 0 then
      if s == "Due today" then Some(0) else None
    else
      var n: int := ParseDigits(s[..k]);
      var rest := s[k..];
      var word := if n == 1 then " day" else " days";
      if n == 0 || (k > 1 && s[0] == '0') then None
      else if rest == word + " left" then Some(n)
      else if rest == word + " overdue" then Some(-n)
      else None
  }

  /** A numeral followed by a suffix that does not start with a digit
      splits back into the two. */
  lemma SplitNumeral(n: nat, rest: string)
    requires |rest| > 0 && !IsDigit(rest[0])
    ensures var s := NatToString(n) + rest;
      var k := DigitPrefixLength(s);
      k > 0 && ParseDigits(s[..k]) == n && s[k..] == rest && (k > 1 ==> s[0] != '0')
  {
    var digits := NatToString(n);
    var s := digits + rest;
    DigitPrefixOfNumeral(digits, rest);
    assert s[..|digits|] == digits && s[|digits|..] == rest;
    ParseNatToString(n);
  }

  lemma ParseDueToday()
    ensures ParseDaysLabel(DaysLabel(0)) == Some(0)
  {
    assert DigitPrefixLength("Due today") == 0;
  }

  lemma ParseDaysLeft(d: int)
    requires d > 0
    ensures ParseDaysLabel(DaysLabel(d)) == Some(d)
  {
    var rest := DayWord(d) + " left";
    SplitNumeral(d, rest);
  }

  lemma ParseDaysOverdue(d: int)
    requires d < 0
    ensures ParseDaysLabel(DaysLabel(d)) == Some(d)
  {
    var n: nat := -d;
    var rest := DayWord(n) + " overdue";
    SplitNumeral(n, rest);
  }

  /** The number word must agree with the count: "1 days left" and
      "2 day overdue" are not labels. */
  lemma ParseRejectsWrongNumberWord()
    ensures ParseDaysLabel("1 days left") == None
    ensures ParseDaysLabel("2 day overdue") == None
  {
    SplitNumeral(1, " days left");
    SplitNumeral(2, " day overdue");
    assert NatToString(1) == "1" && NatToString(2) == "2";
  }

  /** A count written with a leading zero is not a label: the view never
      writes one, so "02 days left" reads as nothing. */
  lemma ParseRejectsLeadingZero()
    ensures ParseDaysLabel("02 days left") == None
  {
    var s := "02 days left";
    assert DigitPrefixLength(s[2..]) == 0;
    assert DigitPrefixLength(s) == 2;
  }

  /** The label loses nothing: the day difference can be read back from it,
      so different differences never share a label. */
  lemma DaysLabelRoundTrip(d: int)
    ensures ParseDaysLabel(DaysLabel(d)) == Some(d)
  {
    if d == 0 {
      ParseDueToday();
    } else if d > 0 {
      ParseDaysLeft(d);
    } else {
      ParseDaysOverdue(d);
    }
  }

  lemma DaysLabelInjective(a: int, b: int)
    requires DaysLabel(a) == DaysLabel(b)
    ensures a == b
  {
    DaysLabelRoundTrip(a);
    DaysLabelRoundTrip(b);
  }

  /** The badge class for the active flag: distinct classes for the two states. */
  function ActiveBadge(isActive: bool): (r: string)
    ensures isActive <==> r == "bg-success"
    ensures !isActive <==> r == "bg-secondary"
  {
    if isActive then "bg-success" else "bg-secondary"
  }

  // ---------------------------------------------------------------------------
  // Records sent back to the service
  // ---------------------------------------------------------------------------

  /** The record sent when the active flag is toggled: the flag flips and
      every other field is copied. */
  function ToggleActive(s: Subscription): (r: Subscription)
    ensures r.isActive == !s.isActive
    ensures r.expense == s.expense && r.billingCycle == s.billingCycle
    ensures r.startDate == s.startDate && r.endDate == s.endDate
  {
    s.(isActive := !s.isActive)
  }

  /** Toggling twice restores the record, and a toggle always swaps the badge. */
  lemma ToggleInvolution(s: Subscription)
    ensures ToggleActive(ToggleActive(s)) == s
    ensures ActiveBadge(ToggleActive(s).isActive) != ActiveBadge(s.isActive)
  {
  }

  // ---------------------------------------------------------------------------
  // View state
  // ---------------------------------------------------------------------------

  datatype View = View(
    subscriptions: seq<Subscription>,
    filtered: seq<Subscription>,
    loading: bool,
    error: Option<string>,
    filters: Filters,
    categories: seq<string>)

  /** The view before the first response: nothing loaded, `loading` up, no
      error, the default controls; already consistent. */
  function InitialView(): (v: View)
    ensures v.subscriptions == [] && v.filtered == [] && v.categories == []
    ensures v.loading && v.error == None && v.filters == DefaultFilters
    ensures Consistent(v)
  {
    View([], [], true, None, DefaultFilters, [])
  }

  const LoadFailedText := "Failed to load subscriptions"
  const DeleteFailedText := "Failed to delete subscription"
  const ToggleFailedText := "Failed to update subscription status"

  /** The derived parts of the view agree with the loaded list and the controls. */
  ghost predicate Consistent(v: View) {
    && v.filtered == ApplyFilters(v.filters, v.subscriptions)
    && v.categories == ExtractCategories(v.subscriptions)
  }

  /** A (re)load starts: the flag is raised and the old error cleared. */
  function StartLoad(v: View): (w: View)
    ensures w.loading && w.error == None
    ensures w.subscriptions == v.subscriptions && w.filtered == v.filtered
    ensures w.filters == v.filters && w.categories == v.categories
  {
    v.(loading := true, error := None)
  }

  /** The list request resolved. On success the list is replaced and the
      categories and displayed list are derived from it; on failure the old
      lists stay and an error is shown. */
  function OnLoaded(v: View, outcome: Response<seq<Subscription>>): (w: View)
    ensures !w.loading && w.filters == v.filters
    ensures outcome.Success? ==>
      && w.subscriptions == outcome.value
      && w.filtered == ApplyFilters(v.filters, outcome.value)
      && w.categories == ExtractCategories(outcome.value)
      && w.error == v.error
    ensures outcome.Failure? ==>
      && w.error == Some(LoadFailedText)
      && w.subscriptions == v.subscriptions && w.filtered == v.filtered
      && w.categories == v.categories
  {
    match outcome
    case Success(data) =>
      v.(subscriptions := data,
         categories := ExtractCategories(data),
         filtered := ApplyFilters(v.filters, data),
         loading := false)
    case Failure =>
      v.(error := Some(LoadFailedText), loading := false)
  }

  /** The user changed a filter control: the displayed list is recomputed
      from the loaded list, which itself is left alone. */
  function ChangeFilters(v: View, f: Filters): (w: View)
    ensures w.filters == f && w.subscriptions == v.subscriptions
    ensures w.filtered == ApplyFilters(f, v.subscriptions)
    ensures forall k | 0 <= k < |w.filtered| :: w.filtered[k] in v.subscriptions && Matches(f, w.filtered[k])
    ensures forall i | 0 <= i < |v.subscriptions| && Matches(f, v.subscriptions[i]) :: v.subscriptions[i] in w.filtered
    ensures w.loading == v.loading && w.error == v.error && w.categories == v.categories
  {
    v.(filters := f, filtered := ApplyFilters(f, v.subscriptions))
  }

  /** A change the view asks the service to make. */
  datatype Request = NoRequest | DeleteRequest(id: string) | UpdateRequest(record: Subscription)

  /** Delete is asked for only once the user confirms it. */
  function RequestDelete(id: string, confirmed: bool): (r: Request)
    ensures r.DeleteRequest? <==> confirmed
    ensures r.DeleteRequest? ==> r.id == id
  {
    if confirmed then DeleteRequest(id) else NoRequest
  }

  /** The toggle sends the toggled record, with no confirmation. */
  function RequestToggle(s: Subscription): (r: Request)
    ensures r.UpdateRequest? && r.record.isActive == !s.isActive && r.record.expense.id == s.expense.id
    ensures r == UpdateRequest(ToggleActive(s))
  {
    UpdateRequest(ToggleActive(s))
  }

  datatype Step = Step(view: View, reload: bool)

  /** The two changes the list view sends: a delete, and an active toggle. */
  datatype Mutation = Deleting | Toggling

  /** A delete or toggle resolved: success reloads the whole list; failure
      shows the message for that change and leaves everything else alone. */
  function OnMutationDone(v: View, m: Mutation, outcome: Response<()>): (s: Step)
    ensures s.reload <==> outcome.Success?
    ensures s.reload ==> s.view == StartLoad(v)
    ensures !s.reload && m == Deleting ==> s.view.error == Some("Failed to delete subscription")
    ensures !s.reload && m == Toggling ==> s.view.error == Some("Failed to update subscription status")
    ensures !s.reload ==>
      && s.view.subscriptions == v.subscriptions && s.view.filtered == v.filtered
      && s.view.loading == v.loading && s.view.filters == v.filters
      && s.view.categories == v.categories
  {
    match outcome
    case Success(_) => Step(StartLoad(v), true)
    case Failure =>
      var text := if m == Deleting then DeleteFailedText else ToggleFailedText;
      Step(v.(error := Some(text)), false)
  }

  /** The initial view is consistent, and every transition keeps the derived
      lists in step with the loaded list and the controls. */
  lemma TransitionsKeepConsistency(v: View, outcome: Response<seq<Subscription>>, f: Filters,
                                   m: Mutation, done: Response<()>)
    ensures Consistent(OnLoaded(v, outcome)) <==> outcome.Success? || Consistent(v)
    ensures Consistent(v) ==> Consistent(StartLoad(v))
    ensures Consistent(v) ==> Consistent(ChangeFilters(v, f))
    ensures Consistent(v) ==> Consistent(OnMutationDone(v, m, done).view)
  {
  }
}
