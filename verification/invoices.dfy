/** The invoices list view: its filters, the total and overdue count it
    derives from the filtered list, the status change it sends back, and its
    load/reload state. */
module Invoices {
  import opened Wrappers
  import opened ExpenseModel
  import opened Text
  import Seqs
  import Categories

  // ---------------------------------------------------------------------------
  // Categories for the dropdown
  // ---------------------------------------------------------------------------

  function CategoryLabels(invoices: seq<Invoice>): (r: seq<string>)
    ensures |r| == |invoices|
    ensures forall i | 0 <= i < |invoices| :: r[i] == invoices[i].expense.category
  {
    seq(|invoices|, i requires 0 <= i < |invoices| => invoices[i].expense.category)
  }

  /** The dropdown list: each non-empty invoice category, once, in sorted order. */
  function ExtractCategories(invoices: seq<Invoice>): (r: seq<string>)
    ensures Categories.StrictlySorted(r)
    ensures forall c :: c in r <==> c != "" && exists i | 0 <= i < |invoices| :: invoices[i].expense.category == c
  {
    var labels := CategoryLabels(invoices);
    assert forall c :: c in labels <==> exists i | 0 <= i < |invoices| :: invoices[i].expense.category == c by {
      forall c | c in labels ensures exists i | 0 <= i < |invoices| :: invoices[i].expense.category == c {
        var i :| 0 <= i < |labels| && labels[i] == c;
      }
    }
    Categories.Extract(labels)
  }

  // ---------------------------------------------------------------------------
  // Filtering
  // ---------------------------------------------------------------------------

  /** The filter controls of the view; the status is chosen among "all" and
      the status spellings. */
  datatype Filters = Filters(selectedStatus: string, selectedCategory: string, searchTerm: string)

  const Wildcard := "all"

  /** The controls as the view starts: every status, every category, no search. */
  const DefaultFilters := Filters(Wildcard, Wildcard, "")

  /** The choices the status dropdown offers besides "all". */
  const Statuses := ["paid", "pending", "overdue"]

  predicate PassesStatus(f: Filters, inv: Invoice) {
    f.selectedStatus == Wildcard || StatusName(inv.paymentStatus) == f.selectedStatus
  }

  predicate PassesCategory(f: Filters, inv: Invoice) {
    f.selectedCategory == Wildcard || inv.expense.category == f.selectedCategory
  }

  /** The search term, lower-cased, occurs in the lower-cased name, invoice
      number or notes. */
  predicate MatchesSearch(term: string, inv: Invoice) {
    var t := ToLower(term);
    || Includes(ToLower(inv.expense.name), t)
    || Includes(ToLower(inv.invoiceNumber), t)
    || (inv.expense.notes.Some? && Includes(ToLower(inv.expense.notes.value), t))
  }

  predicate PassesSearch(f: Filters, inv: Invoice) {
    f.searchTerm == "" || MatchesSearch(f.searchTerm, inv)
  }

  /** The three stages in order: the status, the category, the search. */
  function Matches(f: Filters, inv: Invoice): (ok: bool)
    ensures ok <==>
      && (f.selectedStatus == "all" || StatusName(inv.paymentStatus) == f.selectedStatus)
      && (f.selectedCategory == "all" || inv.expense.category == f.selectedCategory)
      && (f.searchTerm == ""
          || (exists i :: OccursAt(ToLower(inv.expense.name), ToLower(f.searchTerm), i))
          || (exists i :: OccursAt(ToLower(inv.invoiceNumber), ToLower(f.searchTerm), i))
          || (inv.expense.notes.Some?
              && exists i :: OccursAt(ToLower(inv.expense.notes.value), ToLower(f.searchTerm), i)))
  {
    PassesStatus(f, inv) && PassesCategory(f, inv) && PassesSearch(f, inv)
  }

  function StatusStage(f: Filters): Invoice -> bool {
    inv => PassesStatus(f, inv)
  }

  function CategoryStage(f: Filters): Invoice -> bool {
    inv => PassesCategory(f, inv)
  }

  function SearchStage(f: Filters): Invoice -> bool {
    inv => PassesSearch(f, inv)
  }

  function Keep(f: Filters): Invoice -> bool {
    inv => Matches(f, inv)
  }

  /** The displayed list: the invoices that pass all three stages, taken at
      exactly the positions where they pass, in their original order. */
  function ApplyFilters(f: Filters, invoices: seq<Invoice>): (r: seq<Invoice>)
    ensures |r| <= |invoices|
    ensures forall k | 0 <= k < |r| :: r[k] in invoices && Matches(f, r[k])
    ensures forall i | 0 <= i < |invoices| && Matches(f, invoices[i]) :: invoices[i] in r
    ensures Seqs.SelectedBy(r, invoices, Seqs.Positions(Keep(f), invoices))
    ensures forall i | 0 <= i < |invoices| :: Matches(f, invoices[i]) <==> i in Seqs.Positions(Keep(f), invoices)
  {
    Seqs.FilterSelectsPositions(Keep(f), invoices);
    Seqs.FilterMembership(Keep(f), invoices);
    Seqs.Filter(Keep(f), invoices)
  }

  /** Running the three stages one after another, each on what the previous
      one kept, shows the same list as the single combined pass. */
  lemma {:induction false} StagesInOrder(f: Filters, invoices: seq<Invoice>)
    ensures Seqs.Filter(SearchStage(f), Seqs.Filter(CategoryStage(f), Seqs.Filter(StatusStage(f), invoices)))
      == ApplyFilters(f, invoices)
  {
    var statusAndCategory := inv => PassesStatus(f, inv) && PassesCategory(f, inv);
    Seqs.FilterTwice(StatusStage(f), CategoryStage(f), statusAndCategory, invoices);
    Seqs.FilterTwice(statusAndCategory, SearchStage(f), Keep(f), invoices);
  }

  /** With the initial controls every invoice is shown, in order. */
  lemma DefaultFiltersShowAll(invoices: seq<Invoice>)
    ensures ApplyFilters(DefaultFilters, invoices) == invoices
  {
    Seqs.FilterAll(Keep(DefaultFilters), invoices);
  }

  /** The search ignores case: for instance "inv-1" finds invoice "INV-1". */
  lemma SearchIgnoresCase(inv: Invoice)
    requires inv.invoiceNumber == "INV-1"
    ensures Matches(Filters(Wildcard, Wildcard, "inv-1"), inv)
  {
    var t := ToLower("inv-1");
    assert ToLower("INV-1") == t;
    assert OccursAt(ToLower(inv.invoiceNumber), t, 0);
  }

  // ---------------------------------------------------------------------------
  // Derived figures
  // ---------------------------------------------------------------------------

  function InvoiceAmount(inv: Invoice): real {
    AmountValue(inv.expense.amount)
  }

  /** The total of the (filtered) invoices, a non-number counting as 0. */
  function TotalAmount(invoices: seq<Invoice>): (r: real)
    ensures (forall i | 0 <= i < |invoices| :: invoices[i].expense.amount == NotANumber) ==> r == 0.0
    ensures (forall i | 0 <= i < |invoices| :: InvoiceAmount(invoices[i]) >= 0.0) ==> r >= 0.0
  {
    TotalOfNonNumbers(invoices);
    TotalNonNegative(invoices);
    Seqs.SumBy(InvoiceAmount, invoices)
  }

  /** A list of non-numbers sums to zero. */
  lemma {:induction false} TotalOfNonNumbers(invoices: seq<Invoice>)
    ensures (forall i | 0 <= i < |invoices| :: invoices[i].expense.amount == NotANumber)
      ==> Seqs.SumBy(InvoiceAmount, invoices) == 0.0
  {
    if forall i | 0 <= i < |invoices| :: invoices[i].expense.amount == NotANumber {
      var zero := (x: Invoice) => 0.0;
      Seqs.SumByScale(InvoiceAmount, zero, 0.0, invoices);
      Seqs.SumByMonotone(zero, InvoiceAmount, invoices);
      Seqs.SumByMonotone(InvoiceAmount, zero, invoices);
    }
  }

  /** A list without negative amounts has a non-negative sum. */
  lemma {:induction false} TotalNonNegative(invoices: seq<Invoice>)
    ensures (forall i | 0 <= i < |invoices| :: InvoiceAmount(invoices[i]) >= 0.0)
      ==> Seqs.SumBy(InvoiceAmount, invoices) >= 0.0
  {
    if forall i | 0 <= i < |invoices| :: InvoiceAmount(invoices[i]) >= 0.0 {
      var zero := (x: Invoice) => 0.0;
      Seqs.SumByScale(InvoiceAmount, zero, 0.0, invoices);
      Seqs.SumByMonotone(zero, InvoiceAmount, invoices);
    }
  }

  /** The total over a list is the total of its parts. */
  lemma TotalAmountSplits(a: seq<Invoice>, b: seq<Invoice>)
    ensures TotalAmount(a + b) == TotalAmount(a) + TotalAmount(b)
  {
    Seqs.SumByAppend(InvoiceAmount, a, b);
  }

  /** A single invoice totals its own amount, a non-number counting as 0;
      with TotalAmountSplits this fixes the total of every list. */
  lemma TotalOfOne(inv: Invoice)
    ensures TotalAmount([inv]) == AmountValue(inv.expense.amount)
  {
    assert [inv][..0] == [];
    assert Seqs.SumBy(InvoiceAmount, [inv]) == Seqs.SumBy(InvoiceAmount, []) + InvoiceAmount(inv);
  }

  /** Amounts that are not numbers leave the total as it was; with no
      negative amounts the total never drops below zero. */
  lemma TotalAmountIgnoresNonNumbers(invoices: seq<Invoice>, inv: Invoice)
    ensures inv.expense.amount == NotANumber ==> TotalAmount(invoices + [inv]) == TotalAmount(invoices)
    ensures (forall i | 0 <= i < |invoices| :: InvoiceAmount(invoices[i]) >= 0.0) ==> TotalAmount(invoices) >= 0.0
  {
    TotalAmountSplits(invoices, [inv]);
    assert [inv][..0] == [];
    if forall i | 0 <= i < |invoices| :: InvoiceAmount(invoices[i]) >= 0.0 {
      Seqs.SumByMonotone((x: Invoice) => 0.0, InvoiceAmount, invoices);
      Seqs.SumByScale(InvoiceAmount, (x: Invoice) => 0.0, 0.0, invoices);
    }
  }

  predicate IsOverdue(inv: Invoice) {
    inv.paymentStatus == Overdue
  }

  /** The number of (filtered) invoices whose status is overdue. */
  function OverdueCount(invoices: seq<Invoice>): (n: nat)
    ensures n == |set i | 0 <= i < |invoices| && invoices[i].paymentStatus == Overdue|
    ensures n <= |invoices|
    ensures n == 0 <==> forall i | 0 <= i < |invoices| :: invoices[i].paymentStatus != Overdue
    ensures n == |invoices| <==> forall i | 0 <= i < |invoices| :: invoices[i].paymentStatus == Overdue
  {
    Seqs.FilterCountsPassing(IsOverdue, invoices);
    assert Seqs.PassingIndices(IsOverdue, invoices) ==
      set i | 0 <= i < |invoices| && invoices[i].paymentStatus == Overdue;
    |Seqs.Filter(IsOverdue, invoices)|
  }

  /** A single overdue invoice of 250.50 gives a total of 250.50 and an
      overdue count of 1. */
  lemma SingleOverdueInvoice(inv: Invoice)
    requires inv.expense.amount == Num(250.50) && inv.paymentStatus == Overdue
    ensures TotalAmount([inv]) == 250.50
    ensures OverdueCount([inv]) == 1
  {
    TotalAmountSplits([], [inv]);
    assert [] + [inv] == [inv];
    assert [inv][..0] == [];
    assert Seqs.SumBy(InvoiceAmount, [inv]) == Seqs.SumBy(InvoiceAmount, []) + InvoiceAmount(inv);
  }

  // ---------------------------------------------------------------------------
  // Badges and the record sent back
  // ---------------------------------------------------------------------------

  /** The badge class for a status spelling; anything unknown is grey. */
  function StatusBadge(status: string): (r: string)
    ensures status == "paid" <==> r == "bg-success"
    ensures status == "pending" <==> r == "bg-warning"
    ensures status == "overdue" <==> r == "bg-danger"
    ensures status !in Statuses <==> r == "bg-secondary"
  {
    match status
    case "paid" => "bg-success"
    case "pending" => "bg-warning"
    case "overdue" => "bg-danger"
    case _ => "bg-secondary"
  }

  /** The record sent when the status changes: the new status, every other
      field copied. */
  function UpdatePaymentStatus(inv: Invoice, newStatus: PaymentStatus): (r: Invoice)
    ensures r.paymentStatus == newStatus
    ensures r.expense == inv.expense && r.invoiceNumber == inv.invoiceNumber
    ensures r.attachmentUrl == inv.attachmentUrl
  {
    inv.(paymentStatus := newStatus)
  }

  /** Setting the current status changes nothing; a second change overrides
      the first; a change always reaches the matching badge. */
  lemma UpdatePaymentStatusLaws(inv: Invoice, a: PaymentStatus, b: PaymentStatus)
    ensures UpdatePaymentStatus(inv, inv.paymentStatus) == inv
    ensures UpdatePaymentStatus(UpdatePaymentStatus(inv, a), b) == UpdatePaymentStatus(inv, b)
    ensures StatusBadge(StatusName(UpdatePaymentStatus(inv, Overdue).paymentStatus)) == "bg-danger"
  {
  }

  // ---------------------------------------------------------------------------
  // View state
  // ---------------------------------------------------------------------------

  datatype View = View(
    invoices: seq<Invoice>,
    filtered: seq<Invoice>,
    loading: bool,
    error: Option<string>,
    filters: Filters,
    categories: seq<string>)

  /** The view before the first response: nothing loaded, `loading` up, no
      error, the default controls; already consistent. */
  function InitialView(): (v: View)
    ensures v.invoices == [] && v.filtered == [] && v.categories == []
    ensures v.loading && v.error == None && v.filters == DefaultFilters
    ensures Consistent(v)
  {
    View([], [], true, None, DefaultFilters, [])
  }

  const LoadFailedText := "Failed to load invoices"
  const DeleteFailedText := "Failed to delete invoice"
  const UpdateFailedText := "Failed to update invoice status"

  ghost predicate Consistent(v: View) {
    && v.filtered == ApplyFilters(v.filters, v.invoices)
    && v.categories == ExtractCategories(v.invoices)
  }

  function StartLoad(v: View): (w: View)
    ensures w.loading && w.error == None
    ensures w.invoices == v.invoices && w.filtered == v.filtered
    ensures w.filters == v.filters && w.categories == v.categories
  {
    v.(loading := true, error := None)
  }

  /** The list request resolved. On success the list is replaced and the
      categories and displayed list are derived from it; on failure the old
      lists stay and an error is shown. */
  function OnLoaded(v: View, outcome: Response<seq<Invoice>>): (w: View)
    ensures !w.loading && w.filters == v.filters
    ensures outcome.Success? ==>
      && w.invoices == outcome.value
      && w.filtered == ApplyFilters(v.filters, outcome.value)
      && w.categories == ExtractCategories(outcome.value)
      && w.error == v.error
    ensures outcome.Failure? ==>
      && w.error == Some(LoadFailedText)
      && w.invoices == v.invoices && w.filtered == v.filtered
      && w.categories == v.categories
  {
    match outcome
    case Success(data) =>
      v.(invoices := data,
         categories := ExtractCategories(data),
         filtered := ApplyFilters(v.filters, data),
         loading := false)
    case Failure =>
      v.(error := Some(LoadFailedText), loading := false)
  }

  /** The user changed a filter control: the displayed list is recomputed
      from the loaded list, which itself is left alone. */
  function ChangeFilters(v: View, f: Filters): (w: View)
    ensures w.filters == f && w.invoices == v.invoices
    ensures w.filtered == ApplyFilters(f, v.invoices)
    ensures forall k | 0 <= k < |w.filtered| :: w.filtered[k] in v.invoices && Matches(f, w.filtered[k])
    ensures forall i | 0 <= i < |v.invoices| && Matches(f, v.invoices[i]) :: v.invoices[i] in w.filtered
    ensures w.loading == v.loading && w.error == v.error && w.categories == v.categories
  {
    v.(filters := f, filtered := ApplyFilters(f, v.invoices))
  }

  datatype Request = NoRequest | DeleteRequest(id: string) | UpdateRequest(record: Invoice)

  /** Delete is asked for only once the user confirms it. */
  function RequestDelete(id: string, confirmed: bool): (r: Request)
    ensures r.DeleteRequest? <==> confirmed
    ensures r.DeleteRequest? ==> r.id == id
  {
    if confirmed then DeleteRequest(id) else NoRequest
  }

  /** A status change sends the updated record, with no confirmation. */
  function RequestStatusChange(inv: Invoice, newStatus: PaymentStatus): (r: Request)
    ensures r.UpdateRequest? && r.record.paymentStatus == newStatus && r.record.expense.id == inv.expense.id
    ensures r == UpdateRequest(UpdatePaymentStatus(inv, newStatus))
  {
    UpdateRequest(UpdatePaymentStatus(inv, newStatus))
  }

  datatype Step = Step(view: View, reload: bool)

  /** The two changes the list view sends: a delete, and a status change. */
  datatype Mutation = Deleting | ChangingStatus

  /** A delete or status change resolved: success reloads the whole list;
      failure shows the message for that change and leaves everything else
      alone. */
  function OnMutationDone(v: View, m: Mutation, outcome: Response<()>): (s: Step)
    ensures s.reload <==> outcome.Success?
    ensures s.reload ==> s.view == StartLoad(v)
    ensures !s.reload && m == Deleting ==> s.view.error == Some("Failed to delete invoice")
    ensures !s.reload && m == ChangingStatus ==> s.view.error == Some("Failed to update invoice status")
    ensures !s.reload ==>
      && s.view.invoices == v.invoices && s.view.filtered == v.filtered
      && s.view.loading == v.loading && s.view.filters == v.filters
      && s.view.categories == v.categories
  {
    match outcome
    case Success(_) => Step(StartLoad(v), true)
    case Failure =>
      var text := if m == Deleting then DeleteFailedText else UpdateFailedText;
      Step(v.(error := Some(text)), false)
  }

  /** The initial view is consistent, and every transition keeps the derived
      lists in step with the loaded list and the controls. */
  lemma TransitionsKeepConsistency(v: View, outcome: Response<seq<Invoice>>, f: Filters,
                                   m: Mutation, done: Response<()>)
    ensures Consistent(OnLoaded(v, outcome)) <==> outcome.Success? || Consistent(v)
    ensures Consistent(v) ==> Consistent(StartLoad(v))
    ensures Consistent(v) ==> Consistent(ChangeFilters(v, f))
    ensures Consistent(v) ==> Consistent(OnMutationDone(v, m, done).view)
  {
  }
}
