/** The create/edit form for one subscription: its draft, the validation
    that guards submission, and the submit/response/cancel transitions. */
module SubscriptionForm {
  import opened Wrappers
  import opened ExpenseModel

  /** A partially filled subscription: every field may be missing. */
  datatype Draft = Draft(
    id: Option<string>,
    name: Option<string>,
    amount: Option<Amount>,
    category: Option<string>,
    paymentDate: Option<Date>,
    dueDate: Option<Date>,
    isRecurring: Option<bool>,
    frequency: Option<Frequency>,
    notes: Option<string>,
    createdAt: Option<Date>,
    updatedAt: Option<Date>,
    kind: Option<string>,
    billingCycle: Option<BillingCycle>,
    startDate: Option<Date>,
    endDate: Option<Date>,
    isActive: Option<bool>)

  /** The categories the form offers. */
  const BuiltInCategories := ["Entertainment", "Utilities", "Software", "Cloud Services", "Streaming",
                              "Education", "Health", "Finance", "Shopping", "Other"]

  /** The draft a complete subscription gives when the list view opens it for editing. */
  function FromSubscription(s: Subscription): Draft {
    var e := s.expense;
    Draft(Some(e.id), Some(e.name), Some(e.amount), Some(e.category), Some(e.paymentDate), e.dueDate,
          Some(e.isRecurring), e.frequency, e.notes, Some(e.createdAt), Some(e.updatedAt), Some("subscription"),
          Some(s.billingCycle), Some(s.startDate), s.endDate, Some(s.isActive))
  }

  /** The draft the form holds before initialisation; `now` stands for the
      current date the defaults take. */
  function InitialModel(now: Date): Draft {
    Draft(None, Some(""), Some(Num(0.0)), Some(""), Some(now), None, Some(true), Some(Monthly), None,
          None, None, Some("subscription"), Some(BilledMonthly), Some(now), None, Some(true))
  }

  /** The first built-in category, or "" were there none. */
  function DefaultCategory(): string {
    if |BuiltInCategories| > 0 && BuiltInCategories[0] != "" then BuiltInCategories[0] else ""
  }

  /** The draft a reset puts back. */
  function DefaultModel(now: Date): Draft {
    InitialModel(now).(category := Some(DefaultCategory()))
  }

  datatype FormState = FormState(model: Draft, isEdit: bool, loading: bool, error: Option<string>)

  const InvalidText := "Please fill in all required fields"
  const UpdateFailedText := "Failed to update subscription"
  const CreateFailedText := "Failed to create subscription"

  /** The form as a reset leaves it: defaults, create mode, idle, no error. */
  function Reset(now: Date): (st: FormState)
    ensures st.model.category == Some("Entertainment")
    ensures !st.isEdit && !st.loading && st.error == None
  {
    FormState(DefaultModel(now), false, false, None)
  }

  /** The input names an existing subscription: it is present and has a non-empty id. */
  predicate HasId(input: Option<Draft>) {
    input.Some? && input.value.id.Some? && input.value.id.value != ""
  }

  /** Initialisation: an input with an id is edited (on a copy); anything
      else opens an empty form preset to the first built-in category. */
  function Init(input: Option<Draft>, now: Date): (st: FormState)
    ensures st.isEdit <==> HasId(input)
    ensures st.isEdit ==> st.model == input.value
    ensures !st.isEdit ==> st.model == InitialModel(now).(category := Some("Entertainment"))
    ensures !st.loading && st.error == None
  {
    if HasId(input) then FormState(input.value, true, false, None)
    else
      var model := InitialModel(now);
      FormState(if |BuiltInCategories| > 0 then model.(category := Some(BuiltInCategories[0])) else model,
                false, false, None)
  }

  /** Opening the form to create a subscription gives exactly the state a
      reset gives. */
  lemma CreateInitIsReset(input: Option<Draft>, now: Date)
    requires !HasId(input)
    ensures Init(input, now) == Reset(now)
  {
  }

  predicate NonEmptyText(t: Option<string>) {
    t.Some? && t.value != ""
  }

  /** The fields the backend needs are filled in: a name, an amount that is a
      number above 0, a category, a payment date and a start date. */
  function IsFormValid(m: Draft): (ok: bool)
    ensures ok <==>
      && NonEmptyText(m.name)
      && AmountValue(Coerce(m.amount)) > 0.0
      && NonEmptyText(m.category)
      && m.paymentDate.Some? && m.startDate.Some?
    ensures ok ==> Payload(m) == m
  {
    && NonEmptyText(m.name)
    && m.amount.Some? && m.amount.value.Num? && m.amount.value.value > 0.0
    && NonEmptyText(m.category)
    && m.paymentDate.Some?
    && m.startDate.Some?
  }

  /** A freshly reset form cannot be submitted until the user fills in a name
      and an amount. */
  lemma DefaultsAreIncomplete(now: Date)
    ensures !IsFormValid(Reset(now).model)
    ensures IsFormValid(Reset(now).model.(name := Some("Netflix"), amount := Some(Num(9.99))))
  {
  }

  /** A complete subscription with a name, a category and a positive amount
      passes validation when it is edited. */
  lemma CompleteSubscriptionIsValid(s: Subscription)
    requires s.expense.name != "" && s.expense.category != ""
    requires s.expense.amount.Num? && s.expense.amount.value > 0.0
    ensures IsFormValid(FromSubscription(s))
  {
  }

  /** `Number(amount)` for a draft amount; a missing amount is NaN. */
  function Coerce(a: Option<Amount>): Amount {
    match a
    case Some(x) => x
    case None => NotANumber
  }

  /** The record sent on submit: the draft with its amount made a number. */
  function Payload(m: Draft): (r: Draft)
    ensures r.amount.Some? && r.(amount := m.amount) == m
    ensures m.amount.Some? ==> r == m
    ensures m.amount.None? ==> r.amount == Some(NotANumber)
  {
    m.(amount := Some(Coerce(m.amount)))
  }

  /** The backend call a submit makes. */
  datatype Call = AddCall(payload: Draft) | UpdateCall(payload: Draft)

  datatype SubmitStep = SubmitStep(state: FormState, call: Option<Call>)

  /** Submit: an incomplete draft only shows the validation message; a
      complete one raises the loading flag and calls update in edit mode, add
      otherwise, sending the draft itself. */
  function Submit(st: FormState): (s: SubmitStep)
    ensures !IsFormValid(st.model) ==>
      && s.call == None
      && s.state == st.(error := Some(InvalidText))
    ensures IsFormValid(st.model) ==>
      && s.call.Some?
      && (s.call.value.UpdateCall? <==> st.isEdit)
      && s.call.value.payload == st.model
      && s.state == st.(loading := true, error := None)
  {
    if !IsFormValid(st.model) then SubmitStep(st.(error := Some(InvalidText)), None)
    else
      var payload := Payload(st.model);
      assert payload == st.model;
      var call := if st.isEdit then UpdateCall(payload) else AddCall(payload);
      SubmitStep(st.(loading := true, error := None), Some(call))
  }

  /** The events the form emits to the list view. */
  datatype Event = Saved | Cancelled

  datatype Step = Step(state: FormState, emitted: Option<Event>)

  /** The submit call resolved: success emits `saved` and resets the form;
      failure keeps the draft and mode, drops the loading flag and explains
      which call failed. */
  function OnResponse(st: FormState, outcome: Response<()>, now: Date): (s: Step)
    ensures outcome.Success? ==> s.emitted == Some(Saved) && s.state == Reset(now)
    ensures outcome.Failure? ==>
      && s.emitted == None
      && s.state.model == st.model && s.state.isEdit == st.isEdit
      && !s.state.loading
      && s.state.error == Some(if st.isEdit then UpdateFailedText else CreateFailedText)
  {
    match outcome
    case Success(_) => Step(Reset(now), Some(Saved))
    case Failure =>
      Step(st.(error := Some(if st.isEdit then UpdateFailedText else CreateFailedText), loading := false), None)
  }

  /** Cancel emits `cancelled` and resets the form. */
  function Cancel(st: FormState, now: Date): (s: Step)
    ensures s.emitted == Some(Cancelled) && s.state == Reset(now)
  {
    Step(Reset(now), Some(Cancelled))
  }

  /** After a failed call the user can submit again and the same call is made. */
  lemma RetryAfterFailure(st: FormState, now: Date)
    requires IsFormValid(st.model)
    ensures var failed := OnResponse(Submit(st).state, Failure, now).state;
      Submit(failed).call == Submit(st).call
  {
  }

  /** Editing a complete subscription and submitting it sends an update of
      that very subscription. */
  lemma EditSubmitsUpdate(s: Subscription, now: Date)
    requires s.expense.id != "" && s.expense.name != "" && s.expense.category != ""
    requires s.expense.amount.Num? && s.expense.amount.value > 0.0
    ensures Submit(Init(Some(FromSubscription(s)), now)).call == Some(UpdateCall(FromSubscription(s)))
  {
    CompleteSubscriptionIsValid(s);
  }
}
