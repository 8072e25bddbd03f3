/** The records the client exchanges with the backend. A TypeScript
    interface that extends another becomes a record holding the base record;
    string-literal unions become datatypes; optional fields become `Option`. */
module ExpenseModel {
  import opened Wrappers

  /** A point in time. Dates are only stored and passed on, never computed
      with, so the model keeps them opaque. */
  datatype Date = Date(millis: int)

  datatype Frequency = Daily | Weekly | Monthly | Yearly

  datatype BillingCycle = BilledMonthly | BilledYearly

  datatype PaymentStatus = Paid | Pending | Overdue

  /** An amount as received: a number, or a value that `Number(...)` turns
      into NaN (the backend may send amounts as text). */
  datatype Amount = Num(value: real) | NotANumber

  /** `Number(amount) || 0`: the numeric value, with NaN counted as 0. */
  function AmountValue(a: Amount): real {
    match a
    case Num(v) => v
    case NotANumber => 0.0
  }

  datatype Expense = Expense(
    id: string,
    name: string,
    amount: Amount,
    category: string,
    paymentDate: Date,
    dueDate: Option<Date>,
    isRecurring: bool,
    frequency: Option<Frequency>,
    notes: Option<string>,
    createdAt: Date,
    updatedAt: Date)

  /** An expense tagged `type: 'subscription'`. */
  datatype Subscription = Subscription(
    expense: Expense,
    billingCycle: BillingCycle,
    startDate: Date,
    endDate: Option<Date>,
    isActive: bool)

  /** An expense tagged `type: 'invoice'`. */
  datatype Invoice = Invoice(
    expense: Expense,
    invoiceNumber: string,
    paymentStatus: PaymentStatus,
    attachmentUrl: Option<string>)

  /** One `category: amount` entry of a summary's `byCategory` object. */
  datatype CategoryAmount = CategoryAmount(category: string, amount: real)

  /** `byCategory` is kept as the list of its entries in key order, as
      `Object.keys` and `Object.entries` list them. */
  datatype ExpensesSummary = ExpensesSummary(
    total: real,
    byCategory: seq<CategoryAmount>,
    monthlyAverage: real,
    yearlyTotal: real)

  /** No category is listed twice: the entries come from the keys of an object. */
  predicate DistinctCategories(entries: seq<CategoryAmount>) {
    forall i, j | 0 <= i < j < |entries| :: entries[i].category != entries[j].category
  }

  /** The summary the views start from, and the one the service substitutes
      when a summary request fails. */
  const EmptySummary := ExpensesSummary(0.0, [], 0.0, 0.0)

  /** The wire spelling of a payment status. */
  function StatusName(s: PaymentStatus): string {
    match s
    case Paid => "paid"
    case Pending => "pending"
    case Overdue => "overdue"
  }

  /** Each status has its own spelling, so the spelling identifies it. */
  lemma StatusNameInjective(a: PaymentStatus, b: PaymentStatus)
    ensures StatusName(a) == StatusName(b) <==> a == b
  {
  }
}
