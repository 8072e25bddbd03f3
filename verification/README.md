# Expense tracker client logic, modelled in Dafny

This project models the logic of the expense tracker's browser client: the
rules its list and report views apply to data loaded from the backend, and
the create/edit form for subscriptions. The backend, HTTP, dates, locale
formatting and the Angular wiring are outside the model.

Modules, one per concern:

- `Wrappers` (`wrappers.dfy`): `Option`, and `Response` for the result of a
  backend request (`Success(value) | Failure`), which every view receives as
  an input.
- `Text` (`text.dfy`): ASCII lower-casing, `includes`, the default sort order
  of strings, and the decimal rendering of whole numbers.
- `Seqs` (`seqs.dfy`): `Array.filter` and the summing `reduce`, with the
  facts the views need about them.
- `Categories` (`categories.dfy`): the sorted, de-duplicated category list
  both list views build for their dropdowns.
- `ExpenseModel` (`expense_model.dfy`): `Expense`, `Subscription`, `Invoice`,
  `ExpensesSummary`, and the unions `frequency`, `billingCycle` and
  `paymentStatus` as datatypes.
- `Subscriptions`, `Invoices`, `Reports`, `SubscriptionForm`: one module per
  component, each with its pure rules and its view state as a record with
  transition functions.

Modelling choices:

- An amount is `Num(real)` or `NotANumber`; `Number(x) || 0` becomes
  `AmountValue`, which counts `NotANumber` as 0. Text-to-number parsing is not
  modelled: an amount arriving as the text "250.50" is `Num(250.50)`.
- A summary's `byCategory` object is the sequence of its entries in key
  order, with distinct categories.
- Each component's state is a record. Each callback is a function from the
  old record, plus the request's `Response`, to the new record. A change the
  view asks the backend to make is returned as a value (`Request`, `Call`).
- `confirm()` is a boolean input. The `saved` and `cancelled` emitters are an
  `Event` in the result. The current date that `new Date()` supplies is an
  opaque `Date` parameter.

Three behaviours of the code that the model keeps:

- A failed list load keeps the previously loaded list and the displayed
  list; only the error and the loading flag change.
- The form chooses update or add from its `isEdit` flag. That flag is set
  from the input's id at initialisation and cleared by every reset; submit
  never re-reads it from the draft.
- The reports view clears its loading flag only when the yearly summary
  arrives. The monthly response never clears it.

## Model

| member | source | states |
|---|---|---|
| Text.ToLower | src/app/components/subscriptions/subscriptions.component.ts:90 | the lower-cased term has the same length, no upper-case letter, and differs only where an upper-case letter was lowered |
| Text.Includes | src/app/components/subscriptions/subscriptions.component.ts:92-93 | `hay.includes(needle)` holds exactly when the needle occurs at some position of the haystack |
| Text.BeforeIsStrictTotalOrder | src/app/components/subscriptions/subscriptions.component.ts:74 | the default sort order of strings is irreflexive, transitive and total, so a sorted list of distinct strings is well defined |
| Text.ParseNatToString | src/app/components/subscriptions/subscriptions.component.ts:166 | reading back the decimal numeral a template literal writes for a whole number gives that number |
| Seqs.Filter | src/app/components/subscriptions/subscriptions.component.ts:78 | the filtered array is no longer than the input, all of its elements pass, and it is empty or complete exactly when no element or every element passes |
| Seqs.FilterSelectsPositions | src/app/components/subscriptions/subscriptions.component.ts:77-98 | the filtered array is the input read at increasing positions, and those positions are exactly the ones whose element passes |
| Seqs.FilterMembership | src/app/components/invoices/invoices.component.ts:70-92 | every kept element is from the input, and every passing element of the input is kept |
| Seqs.FilterAll | src/app/components/invoices/invoices.component.ts:70-92 | a filter that every element passes returns the input unchanged |
| Seqs.FilterCountsPassing | src/app/components/invoices/invoices.component.ts:150 | the length of a filtered array is the number of positions whose element passes |
| Seqs.FilterConcat | src/app/components/invoices/invoices.component.ts:70 | filtering a concatenation gives the filtered parts, concatenated |
| Seqs.FilterTwice | src/app/components/subscriptions/subscriptions.component.ts:78-98 | filtering by one test and then by another keeps exactly what the two tests together keep, in the same order |
| Seqs.FilterPrepend | src/app/components/subscriptions/subscriptions.component.ts:78 | filtering a list with one element in front keeps that element exactly when it passes, ahead of the filtered rest |
| Seqs.SumByAppend | src/app/components/invoices/invoices.component.ts:146 | the summing reduce over a concatenation is the sum of the reduces over the parts |
| Seqs.SumByMonotone | src/app/components/subscriptions/subscriptions.component.ts:173-177 | summing a pointwise smaller quantity gives a smaller sum |
| Seqs.SumByScale | src/app/components/subscriptions/subscriptions.component.ts:175 | scaling every term by a constant scales the sum by it |
| Categories.Extract | src/app/components/subscriptions/subscriptions.component.ts:67-75 | the dropdown list is strictly sorted, so it has no duplicates, and holds exactly the non-empty labels that occur |
| Categories.StrictlySortedUnique | src/app/components/subscriptions/subscriptions.component.ts:74 | two strictly sorted lists with the same elements are equal, so the sorted set is uniquely determined |
| Categories.ExtractDependsOnlyOnLabelSet | src/app/components/invoices/invoices.component.ts:59-67 | the dropdown list depends only on which non-empty categories occur, not on their order or repetitions |
| Categories.ExtractIdempotent | src/app/components/invoices/invoices.component.ts:59-67 | extracting categories from an extracted list gives the same list |
| ExpenseModel.StatusNameInjective | src/app/models/expense.model.ts:26 | the three payment-status spellings are pairwise different |
| Subscriptions.ExtractCategories | src/app/components/subscriptions/subscriptions.component.ts:67-75 | the categories are strictly sorted and are exactly the non-empty categories of the loaded subscriptions |
| Subscriptions.ApplyFilters | src/app/components/subscriptions/subscriptions.component.ts:77-98 | the displayed list is the loaded list read at exactly the positions whose subscription passes the active/inactive, category and search stages, in the original order |
| Subscriptions.DefaultFiltersShowActiveOnly | src/app/components/subscriptions/subscriptions.component.ts:30-32 | with the initial controls a subscription is shown exactly when it is loaded and active |
| Subscriptions.SearchIgnoresTermCase | src/app/components/subscriptions/subscriptions.component.ts:89-95 | a term and its lower-cased form select the same subscriptions |
| Subscriptions.Matches | src/app/components/subscriptions/subscriptions.component.ts:78-98 | a subscription is shown exactly when its active flag is allowed by the matching checkbox, the category choice is 'all' or equals its category, and the search term is empty or the lower-cased term occurs at some position of its lower-cased name or notes |
| Subscriptions.StagesInOrder | src/app/components/subscriptions/subscriptions.component.ts:78-98 | running the active/inactive stage, then the category stage on what it kept, then the search stage on what that kept, shows the same list as the single combined pass |
| Subscriptions.MonthlyCost | src/app/components/subscriptions/subscriptions.component.ts:174-175 | a monthly subscription costs its amount per month, and twelve months of a yearly one cost its amount |
| Subscriptions.MonthlyTotal | src/app/components/subscriptions/subscriptions.component.ts:171-178 | with non-negative amounts the monthly total lies between one twelfth of the billed total and the billed total, and it is the billed total when nothing is billed yearly |
| Subscriptions.MonthlyTotalByCycle | src/app/components/subscriptions/subscriptions.component.ts:173-177 | the monthly total is the sum of the amounts billed monthly plus a twelfth of the sum of the amounts billed yearly, a non-number counting as 0 |
| Subscriptions.MonthlyTotalSplits | src/app/components/subscriptions/subscriptions.component.ts:173-177 | the monthly total of a concatenation is the sum of the parts' totals |
| Subscriptions.MonthlyTotalContributions | src/app/components/subscriptions/subscriptions.component.ts:174-176 | a yearly 1200 adds 100, a monthly 50 adds 50, and an amount that is not a number adds nothing |
| Subscriptions.DaysLabel | src/app/components/subscriptions/subscriptions.component.ts:165-168 | the label is "Due today" exactly for 0; 1 gives "1 day left" and -1 "1 day overdue"; larger counts end in " days left" or " days overdue"; the count is written without a leading zero |
| Subscriptions.DaysLabelRoundTrip | src/app/components/subscriptions/subscriptions.component.ts:165-168 | the day difference can be read back from its label by a reader that accepts only a count without leading zeros, "day" only after 1 and "days" only after a larger count |
| Subscriptions.ParseRejectsWrongNumberWord | src/app/components/subscriptions/subscriptions.component.ts:166-168 | that reader refuses "1 days left" and "2 day overdue" |
| Subscriptions.ParseRejectsLeadingZero | src/app/components/subscriptions/subscriptions.component.ts:166 | that reader refuses a count with a leading zero such as "02 days left" |
| Subscriptions.DaysLabelInjective | src/app/components/subscriptions/subscriptions.component.ts:165-168 | different day differences never share a label |
| Subscriptions.ActiveBadge | src/app/components/subscriptions/subscriptions.component.ts:153-155 | an active flag gives exactly 'bg-success' and an inactive one exactly 'bg-secondary' |
| Subscriptions.ToggleActive | src/app/components/subscriptions/subscriptions.component.ts:137-140 | the record sent has the active flag negated and every other field copied |
| Subscriptions.ToggleInvolution | src/app/components/subscriptions/subscriptions.component.ts:137-140 | toggling twice restores the record, and a toggle always changes the badge |
| Subscriptions.InitialView | src/app/components/subscriptions/subscriptions.component.ts:23-33 | the view starts with nothing loaded, the loading flag up, no error and the controls active-only, all categories, no search, and is already consistent |
| Subscriptions.StartLoad | src/app/components/subscriptions/subscriptions.component.ts:48-49 | a load raises the loading flag, clears the error and keeps the lists and controls |
| Subscriptions.OnLoaded | src/app/components/subscriptions/subscriptions.component.ts:51-64 | success stores the data, derives the categories and the displayed list from it and drops the loading flag; failure keeps the lists and shows the load error |
| Subscriptions.ChangeFilters | src/app/components/subscriptions/subscriptions.component.ts:77-98 | a filter change sets the displayed list to exactly the loaded subscriptions that match the new controls, every match included, and changes nothing else: the loaded list, categories, loading flag and error stay |
| Subscriptions.RequestDelete | src/app/components/subscriptions/subscriptions.component.ts:122-124 | a delete of the given id is requested exactly when the user confirms |
| Subscriptions.RequestToggle | src/app/components/subscriptions/subscriptions.component.ts:136-142 | the toggle requests an update of the subscription with only its active flag negated |
| Subscriptions.OnMutationDone | src/app/components/subscriptions/subscriptions.component.ts:122-151 | a successful delete or toggle reloads the whole list; a failed delete shows 'Failed to delete subscription', a failed toggle 'Failed to update subscription status', and everything else stays |
| Subscriptions.TransitionsKeepConsistency | src/app/components/subscriptions/subscriptions.component.ts:47-98 | the displayed list and categories start in step with the loaded list and controls, and every transition keeps them in step |
| Invoices.ExtractCategories | src/app/components/invoices/invoices.component.ts:59-67 | the categories are strictly sorted and are exactly the non-empty categories of the loaded invoices |
| Invoices.ApplyFilters | src/app/components/invoices/invoices.component.ts:69-93 | the displayed list is the loaded list read at exactly the positions whose invoice passes the status, category and search stages, in the original order |
| Invoices.DefaultFiltersShowAll | src/app/components/invoices/invoices.component.ts:28-29 | with the initial controls ('all', 'all', '') the displayed list is the loaded list |
| Invoices.SearchIgnoresCase | src/app/components/invoices/invoices.component.ts:82-89 | the term "inv-1" finds the invoice numbered "INV-1" |
| Invoices.Matches | src/app/components/invoices/invoices.component.ts:70-92 | an invoice is shown exactly when the status choice is 'all' or its status spelling, the category choice is 'all' or its category, and the search term is empty or the lower-cased term occurs at some position of its lower-cased name, invoice number or notes |
| Invoices.StagesInOrder | src/app/components/invoices/invoices.component.ts:70-92 | running the status stage, then the category stage on what it kept, then the search stage on what that kept, shows the same list as the single combined pass |
| Invoices.TotalAmount | src/app/components/invoices/invoices.component.ts:145-147 | a list whose amounts are all not numbers totals 0, and non-negative amounts give a non-negative total |
| Invoices.TotalOfNonNumbers | src/app/components/invoices/invoices.component.ts:146 | a list whose amounts are all not numbers sums to 0 |
| Invoices.TotalNonNegative | src/app/components/invoices/invoices.component.ts:145-147 | a list without negative amounts has a non-negative sum |
| Invoices.TotalOfOne | src/app/components/invoices/invoices.component.ts:146 | a single invoice totals its own numeric amount, or 0 when the amount is not a number; with TotalAmountSplits this fixes the total of every list |
| Invoices.TotalAmountSplits | src/app/components/invoices/invoices.component.ts:145-147 | the total of a concatenation is the sum of the parts' totals |
| Invoices.TotalAmountIgnoresNonNumbers | src/app/components/invoices/invoices.component.ts:146 | an amount that is not a number leaves the total unchanged, and with no negative amounts the total is not negative |
| Invoices.OverdueCount | src/app/components/invoices/invoices.component.ts:149-151 | the overdue count is the number of positions holding an overdue invoice; it is 0 exactly when none is overdue and the length exactly when all are |
| Invoices.SingleOverdueInvoice | src/app/components/invoices/invoices.component.ts:145-151 | one overdue invoice of 250.50 gives a total of 250.50 and an overdue count of 1 |
| Invoices.StatusBadge | src/app/components/invoices/invoices.component.ts:136-143 | paid, pending and overdue give exactly 'bg-success', 'bg-warning' and 'bg-danger', and every other text gives 'bg-secondary' |
| Invoices.UpdatePaymentStatus | src/app/components/invoices/invoices.component.ts:120-123 | the record sent has the new status and every other field copied |
| Invoices.UpdatePaymentStatusLaws | src/app/components/invoices/invoices.component.ts:120-123 | setting the current status changes nothing, and of two changes the second one wins |
| Invoices.InitialView | src/app/components/invoices/invoices.component.ts:21-31 | the view starts with nothing loaded, the loading flag up, no error and the controls 'all', 'all' and no search, and is already consistent |
| Invoices.StartLoad | src/app/components/invoices/invoices.component.ts:40-41 | a load raises the loading flag, clears the error and keeps the lists and controls |
| Invoices.OnLoaded | src/app/components/invoices/invoices.component.ts:43-56 | success stores the data, derives the categories and the displayed list from it and drops the loading flag; failure keeps the lists and shows the load error |
| Invoices.ChangeFilters | src/app/components/invoices/invoices.component.ts:69-93 | a filter change sets the displayed list to exactly the loaded invoices that match the new controls, every match included, and changes nothing else: the loaded list, categories, loading flag and error stay |
| Invoices.RequestDelete | src/app/components/invoices/invoices.component.ts:105-107 | a delete of the given id is requested exactly when the user confirms |
| Invoices.RequestStatusChange | src/app/components/invoices/invoices.component.ts:119-125 | a status change requests an update of the invoice with only its payment status replaced by the new one |
| Invoices.OnMutationDone | src/app/components/invoices/invoices.component.ts:105-134 | a successful delete or status change reloads the whole list; a failed delete shows 'Failed to delete invoice', a failed status change 'Failed to update invoice status', and everything else stays |
| Invoices.TransitionsKeepConsistency | src/app/components/invoices/invoices.component.ts:39-93 | the displayed list and categories start in step with the loaded list and controls, and every transition keeps them in step |
| Reports.InsertByAmount | src/app/components/reports/reports.component.ts:112 | inserting into a list sorted largest first keeps it sorted and adds no entry other than the inserted one |
| Reports.InsertIsPermutation | src/app/components/reports/reports.component.ts:112 | insertion adds exactly one copy of the inserted entry |
| Reports.SortByAmount | src/app/components/reports/reports.component.ts:112 | the sorted entries have amounts that never increase from front to back |
| Reports.SortIsPermutation | src/app/components/reports/reports.component.ts:112 | sorting keeps every entry as often as it occurs |
| Reports.InsertIsStable | src/app/components/reports/reports.component.ts:112 | among entries with any one amount, insertion puts the new entry first and keeps the others in order |
| Reports.SortIsStable | src/app/components/reports/reports.component.ts:112 | the sort is stable: for every amount, the entries with that amount keep their input order |
| Reports.SortKeepsDistinct | src/app/components/reports/reports.component.ts:110-112 | sorting entries with distinct categories keeps them distinct |
| Reports.TopCategories | src/app/components/reports/reports.component.ts:109-115 | the ranking has min(limit, #categories) entries for a non-negative limit, is sorted largest first, holds entries of the summary with distinct categories, and no entry left out has a larger amount than an entry kept |
| Reports.DefaultTopCategories | src/app/components/reports/reports.component.ts:109-115 | with the default limit the ranking holds the five largest categories, or all of them when there are fewer, largest first; every entry comes from the input and no category appears twice |
| Reports.LookupFindsEntry | src/app/components/reports/reports.component.ts:84-87 | with distinct categories, looking up an entry's category gives that entry's amount |
| Reports.ChartData | src/app/components/reports/reports.component.ts:84-87 | there is one label and one value per entry, every category of the summary is a label, distinct categories give distinct labels, and each value is the amount the summary gives for the label at the same position |
| Reports.MonthName | src/app/components/reports/reports.component.ts:97-103 | a name exists exactly for months 1 to 12; 1 is "January" and 12 is "December" |
| Reports.MonthNameInjective | src/app/components/reports/reports.component.ts:98-101 | no two months share a name |
| Reports.FormatPercentage | src/app/components/reports/reports.component.ts:135-138 | a zero total gives exactly "0%"; otherwise the ratio is the value as a percentage of the total |
| Reports.InitialView | src/app/components/reports/reports.component.ts:21-40 | the view starts on the given year and month with both summaries empty, the loading flag up, no error and an empty chart, which is in step with the monthly summary |
| Reports.StartLoad | src/app/components/reports/reports.component.ts:53-54 | a load raises the loading flag, clears the error and keeps the selected period, the summaries and the chart |
| Reports.ChangePeriod | src/app/components/reports/reports.component.ts:89-95 | picking a year or month stores it and starts a reload, keeping the summaries and chart until the responses arrive |
| Reports.OnMonthlyLoaded | src/app/components/reports/reports.component.ts:57-67 | the monthly response stores the summary and its chart data, or shows the monthly error; it never changes the loading flag, the selected period or the yearly summary |
| Reports.OnYearlyLoaded | src/app/components/reports/reports.component.ts:70-81 | the yearly response stores the summary or shows the yearly error, and either way drops the loading flag, keeping the selected period, the monthly summary and the chart |
| Reports.ChartStaysInStep | src/app/components/reports/reports.component.ts:43-87 | the chart starts in step with the monthly summary, and every transition keeps it so, whichever response comes first |
| Reports.YearlyResponseAloneClearsLoading | src/app/components/reports/reports.component.ts:56-81 | after a reload the yearly response clears the loading flag while the monthly response leaves it raised |
| SubscriptionForm.Reset | src/app/components/subscriptions/subscription-form/subscription-form.component.ts:130-146 | a reset leaves create mode, no loading, no error and the category set to 'Entertainment' |
| SubscriptionForm.Init | src/app/components/subscriptions/subscription-form/subscription-form.component.ts:64-74 | the form is in edit mode on a copy of the input exactly when the input has a non-empty id; otherwise it holds the defaults with category 'Entertainment' |
| SubscriptionForm.CreateInitIsReset | src/app/components/subscriptions/subscription-form/subscription-form.component.ts:49-74 | opening the form for creation gives exactly the state a reset gives |
| SubscriptionForm.IsFormValid | src/app/components/subscriptions/subscription-form/subscription-form.component.ts:115-124 | a draft passes exactly when it has a non-empty name, an amount whose number is above 0, a non-empty category, a payment date and a start date; a passing draft is sent as it is |
| SubscriptionForm.DefaultsAreIncomplete | src/app/components/subscriptions/subscription-form/subscription-form.component.ts:115-124 | the reset draft fails validation, and it passes once a name and a positive amount are filled in |
| SubscriptionForm.CompleteSubscriptionIsValid | src/app/components/subscriptions/subscription-form/subscription-form.component.ts:115-124 | a subscription with a name, a category and a positive amount passes validation when opened for editing |
| SubscriptionForm.Payload | src/app/components/subscriptions/subscription-form/subscription-form.component.ts:85-91 | the record sent is the draft with only its amount replaced by a number, a missing amount becoming NaN |
| SubscriptionForm.Submit | src/app/components/subscriptions/subscription-form/subscription-form.component.ts:76-96 | an invalid draft only sets the validation error and makes no call; a valid one raises the loading flag, clears the error and calls update in edit mode and add otherwise, sending the draft |
| SubscriptionForm.OnResponse | src/app/components/subscriptions/subscription-form/subscription-form.component.ts:97-109 | success emits `saved` and resets the form; failure keeps the draft and mode, drops the loading flag and names the failed call |
| SubscriptionForm.Cancel | src/app/components/subscriptions/subscription-form/subscription-form.component.ts:110-113 | cancel emits `cancelled` and resets the form |
| SubscriptionForm.RetryAfterFailure | src/app/components/subscriptions/subscription-form/subscription-form.component.ts:76-109 | after a failed call, submitting again makes the same call |
| SubscriptionForm.EditSubmitsUpdate | src/app/components/subscriptions/subscription-form/subscription-form.component.ts:64-96 | opening a complete subscription for editing and submitting sends an update of that subscription |

## Left out

- The data-access service (`src/app/services/expense.service.ts`) is not part of this model. Every request's result is a `Response` input. The service's error handler (expense.service.ts:132-136) turns a failed request into a successful one carrying a fallback value, so in the running client no component's error callback runs: a failed list load delivers [] and empties the list with no error shown; a failed delete delivers `false` and the view reloads; a failed add or update delivers `undefined` and the form emits `saved` and resets; a failed summary request delivers the zero summary. Each fallback is a `Success` input to the model, which also keeps the components' own failure branches.
- The dashboard component is not part of this model. It loads the same two summaries as the reports view but clears its loading flag on either response (dashboard.component.ts:51, 64).
- Routing, bootstrap and host files carry no logic.
- Dates are opaque values. Three date computations are not modelled: the millisecond difference and `Math.round` that give the day count in `getDaysUntilPayment`, `formatDate` and `formatDateForApi`. Only the label built from a whole day count is modelled.
- `formatCurrency` (`Intl.NumberFormat`) and the `toFixed(1)` rendering in `formatPercentage` are not modelled. Amounts are exact reals, with no claim of floating-point rounding parity.
- `getMonthlyTrend` returns random mock data and is not modelled.
- `getCategoryKeys` in the reports view is `Object.keys` and is not modelled separately from `ChartData`.
- `toLowerCase` is modelled on ASCII letters only. Other letters are left unchanged.
- The default `sort()` compares UTF-16 code units. The model compares characters, and the two orders differ only outside the Basic Multilingual Plane.
- Object key order is modelled as the order of the entries. JavaScript lists integer-like keys first, and that ordering is not modelled.
- The subscriptions view's form-visibility handlers (`openAddSubscription`, `openEditSubscription`, `onFormSaved`, `onFormCancelled`) and the invoices view's unimplemented add/edit stubs are not modelled. The form itself is modelled.
- `console` logging and the `EventEmitter` mechanics are not modelled. An emitted event is a value in the result.
