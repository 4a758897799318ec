# Expense tracker core in Dafny

This project models the core of a React Native expense tracker: the expense
store (collection, id set, filters, persisted copy, spending alerts), the
filtered and sorted view and the total, the import of Monobank bank
statements, the per-category chart of the home screen, the filter panel, and
the add-expense form hook.

Modules, one per concern of the program:

- `Types` (`types.dfy`): the expense record, the filter record, the form record and the category list.
- `Collections` (`collections.dfy`): order-preserving filtering, as `Array.prototype.filter` does it.
- `Text` (`text.dfy`): lower-casing, substring search and white-space trimming, as the string methods used by the app do them.
- `ExpenseViews` (`expense_views.dfy`): `filteredExpenses`, `totalExpenses`, `selectedCategory` and `setFilter`, as pure functions of the collection and the filter record.
- `ExpenseStore` (`expense_store.dfy`): the store as a class whose methods update its fields.
- `StoreScenarios` (`store_scenarios.dfy`): client code that drives the store through a duplicate id, the spending alert, a re-import, a restart and the deletion of the last entry.
- `Monobank` (`monobank.dfy`): the merchant-code table, the account filter and the statement import loop.
- `ExpenseChart` (`expense_chart.dfy`): the totals dictionary, the legend and slice records, the colour lookup and the slice selection.
- `ExpenseFilter` (`expense_filter.dfy`): the handlers and derived values of the filter panel.
- `AddExpenseForm` (`add_expense_form.dfy`): the form hook as a class.

Representation choices:

- Amounts are `real` (exact decimals). Dates are integer millisecond timestamps.
- "Today" is `dayOf(now)`, where the clock reading `now` and the local-calendar function `dayOf` are parameters.
- `parseFloat` is a parameter `parse`: `None` stands for `NaN`.
- The two Monobank HTTP calls are replaced by their outcomes. The client-info call is a response that is not ok, an exception carrying its message, or the account list. The statement response, given per account id, is `None` when it is not ok or the request throws.
- The spending-alert notification is recorded as a value appended to the store's `alerts` list.
- The key-value slot is the store's `storage` field.

Where the code behaves differently from what a reader might expect, the model follows the code:

- `totalExpenses` sums the whole collection, not the filtered view. The chart also groups the whole collection.
- The filter record declared in `types/index.ts` has no `searchText` and no `amountRange`. The store's filter code reads both, so both are fields here.
- The persisted copy is rewritten only when the collection is non-empty. After the last expense is deleted, the next start therefore loads it again (`StoreScenarios.DeletedLastExpenseReturns`).
- A batch add checks ids against the store only, not within the batch (`ExpenseStore.BatchDuplicatesKept`).
- An amount that does not parse passes validation, because a comparison with `NaN` is false (`AddExpenseForm.UnparsableAmountAccepted`).
- "Clear All" also drops the date and amount ranges, and the "Active Filters" banner ignores the amount range (`ExpenseFilter.AmountRangeIsNotReported`).

## Model

| member | source | states |
|---|---|---|
| Text.ToLower | context/ExpenseContext.tsx:80 | the result has the input's length, contains no letter A-Z, maps each A-Z to its lower-case letter and keeps every other character |
| Text.ToLowerIdempotent | context/ExpenseContext.tsx:80 | lower-casing an already lower-cased text changes nothing |
| Text.Includes | context/ExpenseContext.tsx:83-84 | true iff the needle occurs at some position of the text |
| Text.TrimStart | hooks/useAddExpenseForm.ts:45 | the result is a suffix of the input; everything dropped is white space; the result does not start with white space |
| Text.TrimEnd | hooks/useAddExpenseForm.ts:45 | the result is a prefix of the input; everything dropped is white space; the result does not end with white space |
| Text.TrimEmptyIffBlank | hooks/useAddExpenseForm.ts:45 | a string trims to "" iff all of its characters are white space |
| ExpenseViews.TotalExpenses | context/ExpenseContext.tsx:101-103 | the left-to-right sum of the amounts of the whole collection; `TotalAppend` gives its additivity |
| ExpenseViews.TotalAppend | context/ExpenseContext.tsx:101-103 | the total of two lists one after the other is the sum of their totals |
| ExpenseViews.ApplyFilters | context/ExpenseContext.tsx:63-93 | the four successive passes, each applied only when its criterion is present; `ApplyFiltersIsConjunction` characterises it |
| ExpenseViews.ApplyFiltersSingle | context/ExpenseContext.tsx:63-93 | one expense survives the four filter passes iff it satisfies every criterion that is present |
| ExpenseViews.ApplyFiltersAppend | context/ExpenseContext.tsx:63-93 | the filter passes of a concatenation are the concatenation of the filter passes |
| ExpenseViews.ApplyFiltersIsConjunction | context/ExpenseContext.tsx:63-93 | the four successive passes keep exactly the expenses that satisfy the conjunction of the present criteria, in collection order |
| ExpenseViews.InsertByDate | context/ExpenseContext.tsx:94-96 | inserting adds exactly the new element to the multiset and to the members |
| ExpenseViews.InsertByDateSorted | context/ExpenseContext.tsx:94-96 | inserting into a list sorted most recent first keeps it sorted |
| ExpenseViews.SortByDateDesc | context/ExpenseContext.tsx:94-96 | the sort is a permutation of its input, sorted most recent first |
| ExpenseViews.InsertByDateStable | context/ExpenseContext.tsx:94-96 | inserting keeps the relative order of the entries of every date, with the new entry ahead of its ties |
| ExpenseViews.SortByDateDescStable | context/ExpenseContext.tsx:94-96 | entries of equal date keep their input order: the sort is stable |
| ExpenseViews.FilteredExpenses | context/ExpenseContext.tsx:63-99 | the filter passes followed by the stable most-recent-first sort; `FilteredExpensesSpec` characterises it |
| ExpenseViews.FilteredMembers | context/ExpenseContext.tsx:63-99 | an expense is in the view iff it is in the collection and matches the filters |
| ExpenseViews.FilteredExpensesSpec | context/ExpenseContext.tsx:63-99 | view membership iff the category, date range, case-insensitive search and amount range criteria all hold; the view is a permutation of the matching entries, sorted most recent first, stable on ties |
| ExpenseViews.NoCriteriaShowsEverything | context/ExpenseContext.tsx:63-99 | with no criterion present the view holds every expense of the collection |
| ExpenseViews.SetFilter | context/ExpenseContext.tsx:178-183 | "All" gives type "all" and no category; any other name gives type "category" and that category; no other criterion |
| ExpenseViews.SelectedCategory | context/ExpenseContext.tsx:176 | the category criterion when it is a non-empty string, otherwise "All"; never empty |
| ExpenseViews.SelectedCategoryRoundTrip | context/ExpenseContext.tsx:176-183 | selecting any non-empty name with `setFilter` makes `selectedCategory` report that name |
| ExpenseStore.TodayTotal | context/ExpenseContext.tsx:109-114 | the sum of the amounts of the entries dated on the day of the clock reading |
| ExpenseStore.Persisted | context/ExpenseContext.tsx:57-61 | the slot after the save effect: the collection when it is non-empty, the old slot otherwise |
| ExpenseStore.SpendingAlerts | context/ExpenseContext.tsx:110-118 | at most one alert; there is one iff today's total exceeds 100; the alert carries today's total |
| ExpenseStore.UnseenSpec | context/ExpenseContext.tsx:125-129 | a batch keeps exactly its entries of unknown id; the id set afterwards is the old set plus every batch id; all-known gives nothing, all-new gives the whole batch |
| ExpenseStore.ImportIsIdempotent | context/ExpenseContext.tsx:125-129 | after one batch add, adding the same batch again finds nothing new |
| ExpenseStore.BatchDuplicatesKept | context/ExpenseContext.tsx:125-128 | two entries of one batch with the same fresh id are both added, so ids are no longer distinct |
| ExpenseStore.UnseenDistinct | context/ExpenseContext.tsx:125-128 | filtering a batch with distinct ids keeps them distinct |
| ExpenseStore.UnseenKeepsIdsDistinct | context/ExpenseContext.tsx:125-132 | appending the new part of a batch with distinct ids keeps the collection's ids distinct |
| ExpenseStore.WithoutIdSpec | context/ExpenseContext.tsx:150-156 | deletion removes every entry of that id and nothing else; the ids become the old ids minus that id; an absent id changes nothing |
| ExpenseStore.Recategorized | context/ExpenseContext.tsx:168-174 | the update keeps the length of the collection |
| ExpenseStore.RecategorizedTotal | context/ExpenseContext.tsx:168-174 | changing a category does not change the total |
| ExpenseStore.RecategorizedSpec | context/ExpenseContext.tsx:168-174 | entries of that id get the new category (unchecked), all other fields and entries are unchanged; ids and total are preserved |
| ExpenseStore.Store.constructor | context/ExpenseContext.tsx:35-46 | an empty collection and id set, filter type "all", no alerts |
| ExpenseStore.Store.SaveEffect | context/ExpenseContext.tsx:57-61 | the slot is overwritten with the collection iff the collection is non-empty |
| ExpenseStore.Store.Initialize | context/ExpenseContext.tsx:48-55 | the collection becomes the stored list, or [] when the slot is empty or unreadable; the id set is rebuilt from it |
| ExpenseStore.Store.AddExpense | context/ExpenseContext.tsx:105-123 | a known id changes nothing; otherwise the expense is appended, its id recorded, an alert scheduled iff today's total exceeds 100, and the collection saved; the id set stays the collection's ids |
| ExpenseStore.Store.AddExpenses | context/ExpenseContext.tsx:125-148 | a batch with nothing new changes nothing; otherwise its unknown-id entries are appended in batch order, all batch ids recorded, at most one alert scheduled, and the collection saved |
| ExpenseStore.Store.RecordIds | context/ExpenseContext.tsx:147 | the id set gains exactly the ids of the added entries |
| ExpenseStore.Store.DeleteExpense | context/ExpenseContext.tsx:150-156 | the entries of that id are removed and the id forgotten; the slot is rewritten only if something remains |
| ExpenseStore.Store.ClearStorage | context/ExpenseContext.tsx:158-162 | collection and id set emptied, slot removed, filters kept |
| ExpenseStore.Store.UpdateExpenseCategory | context/ExpenseContext.tsx:168-174 | the collection is recategorised, the id set is unchanged, the slot rewritten if non-empty |
| ExpenseStore.Store.SetFilters | context/ExpenseContext.tsx:164-166 | the filter record is replaced as given |
| ExpenseStore.Store.SetCategoryFilter | context/ExpenseContext.tsx:178-183 | the filter record is replaced by the category choice |
| StoreScenarios.DuplicateIdIsRejected | context/ExpenseContext.tsx:105-106 | a second expense with a known id is dropped and the first one's amount stays |
| StoreScenarios.BatchSchedulesOneAlert | context/ExpenseContext.tsx:125-145 | a batch of today's expenses totalling 120 schedules exactly one alert of 120 |
| StoreScenarios.SingleAddsScheduleOneAlert | context/ExpenseContext.tsx:105-123 | adding 50, 40 and 30 one by one schedules one alert, of 120, on the add that crosses 100 |
| StoreScenarios.TodayAlerts | context/ExpenseContext.tsx:110-118 | today's totals 50 and 90 schedule nothing, 120 schedules one alert |
| StoreScenarios.ImportTwice | context/ExpenseContext.tsx:125-129 | importing the same batch twice leaves the collection as after one import |
| StoreScenarios.RestartRestores | context/ExpenseContext.tsx:48-61 | a new session reloads exactly the collection the previous session saved |
| StoreScenarios.DeletedLastExpenseReturns | context/ExpenseContext.tsx:57-61 | deleting the only expense empties the collection, yet the next start loads it again |
| Monobank.MapMccToCategory | services/monobankService.ts:3-25 | the category of every merchant code, range by range, first match winning; always one of the seven categories |
| Monobank.CardAccounts | services/monobankService.ts:33 | the kept accounts are exactly those not of type "fop", with no account gained or repeated |
| Monobank.CardAccountsAppend | services/monobankService.ts:33 | the account filter commutes with concatenation, so the kept accounts keep their original order |
| Monobank.CardAccountsSingle | services/monobankService.ts:33 | one account is kept iff its type is not "fop" |
| Monobank.FetchMonobankAccounts | services/monobankService.ts:27-34 | a response that is not ok is the error "Failed to fetch accounts"; an exception keeps its own message; otherwise the result is the card accounts, in order |
| Monobank.ToExpense | services/monobankService.ts:80-86 | a debit becomes a positive amount in major units with a category from the list |
| Monobank.AccountExpenses | services/monobankService.ts:71-87 | at most one expense per statement entry |
| Monobank.AccountExpensesAppend | services/monobankService.ts:71-87 | the expenses of two statements one after the other are those of the first followed by those of the second |
| Monobank.AccountExpensesSingle | services/monobankService.ts:71-87 | one entry yields its conversion if it is a debit and nothing otherwise, so the expenses follow statement order |
| Monobank.AccountExpensesSpec | services/monobankService.ts:71-87 | the expenses of a statement are exactly the conversions of its debits; each has a positive amount, a listed category and no photo |
| Monobank.ImportedAreDebits | services/monobankService.ts:48-97 | every imported expense has a positive amount and a listed category |
| Monobank.Imported | services/monobankService.ts:48-97 | the concatenation, in account order, of each account's expenses, nothing for a failed statement |
| Monobank.ImportedAppend | services/monobankService.ts:48-97 | importing two account lists one after the other gives the two imports one after the other |
| Monobank.FailedAccountsSkipped | services/monobankService.ts:62-67 | an account whose statement fails adds nothing wherever it stands, and the other accounts contribute as without it |
| Monobank.ImportResult | services/monobankService.ts:27-46 | the error of the account call, or "No card accounts found for this user" when no card account remains; otherwise success with the import of the card accounts in their order |
| Monobank.ImportAccounts | services/monobankService.ts:48-97 | the loop over the card accounts builds exactly `Imported`: each account's debits appended in account order, a failed statement skipped |
| Monobank.FetchMonobankTransactions | services/monobankService.ts:36-100 | the result is `ImportResult`, the two errors included; on success every imported expense has a positive amount and a listed category |
| ExpenseChart.ColorOf | components/Home/ExpenseChart.tsx:28 | a listed category gets its fixed colour; the fallback colour iff the category is not listed |
| ExpenseChart.CategoryTotalStep | components/Home/ExpenseChart.tsx:21-24 | one more expense adds its amount to its own category's total and to no other |
| ExpenseChart.FirstAppearance | components/Home/ExpenseChart.tsx:20-26 | the categories in the order the `forEach` first inserts them; `FirstAppearanceSpec` and `FirstAppearanceOrder` characterise it |
| ExpenseChart.FirstAppearanceSpec | components/Home/ExpenseChart.tsx:20-26 | the dictionary keys are exactly the categories present, each once |
| ExpenseChart.FirstAppearanceOrder | components/Home/ExpenseChart.tsx:20-26 | keys are listed in the order in which their categories first occur in the collection |
| ExpenseChart.TotalsMap | components/Home/ExpenseChart.tsx:20-24 | the dictionary after the `forEach`: each category mapped to its running sum; `TotalsMapKeys`, `TotalsMapValues` and `TotalsMapSum` characterise it |
| ExpenseChart.TotalsMapKeys | components/Home/ExpenseChart.tsx:20-24 | the dictionary has a value exactly for each key in the key order |
| ExpenseChart.TotalsMapValues | components/Home/ExpenseChart.tsx:20-24 | each category's value is the sum of the amounts of its expenses |
| ExpenseChart.TotalsMapSum | components/Home/ExpenseChart.tsx:20-24 | the values, summed in key order, equal `totalExpenses`, so the legend percentages add up to 100 |
| ExpenseChart.CategoryTotals | components/Home/ExpenseChart.tsx:20-24 | the `forEach` builds the dictionary and key order of the collection, with the three properties above |
| ExpenseChart.LegendData | components/Home/ExpenseChart.tsx:26-30 | one legend entry per key |
| ExpenseChart.LegendOfExpenses | components/Home/ExpenseChart.tsx:20-30 | entry i of a collection's legend names the i-th category to appear, carries the sum of that category's amounts and its colour; the values add up to `totalExpenses` |
| ExpenseChart.LegendSpec | components/Home/ExpenseChart.tsx:26-30 | a category has a legend entry iff some expense has it; an empty collection has no legend |
| ExpenseChart.ChartData | components/Home/ExpenseChart.tsx:32-38 | each slice copies its legend entry and is shifted iff it is the selected category |
| ExpenseChart.AtMostOneShifted | components/Home/ExpenseChart.tsx:32-38 | with distinct legend texts at most one slice is shifted |
| ExpenseChart.OnPress | components/Home/ExpenseChart.tsx:49-54 | a slice without text changes nothing; pressing the selected slice clears the selection; pressing another selects it |
| ExpenseChart.OnPressTwice | components/Home/ExpenseChart.tsx:49-54 | pressing a slice twice, from no selection or from that slice, restores the selection |
| ExpenseFilter.FilterCategoriesSpec | components/Home/ExpenseFilter.tsx:14 | eight distinct non-empty chips, "All" first |
| ExpenseFilter.HandleCategoryChange | components/Home/ExpenseFilter.tsx:18-23 | "All" removes the category, any other chip sets it; every other field is kept |
| ExpenseFilter.HandleSearchChange | components/Home/ExpenseFilter.tsx:25-30 | an empty text removes the search criterion, any other text becomes it; every other field is kept |
| ExpenseFilter.SearchBoxValue | components/Home/ExpenseFilter.tsx:57 | the box is empty iff no search criterion is active |
| ExpenseFilter.SearchBoxShowsTyped | components/Home/ExpenseFilter.tsx:25-30 | after typing a text the box shows that text |
| ExpenseFilter.SearchBoxRetypeIsStable | components/Home/ExpenseFilter.tsx:25-30 | re-entering the box's text leaves the record unchanged iff the stored text is not the empty string |
| ExpenseFilter.ClearFilters | components/Home/ExpenseFilter.tsx:32-38 | type "all" and no criterion at all, date and amount range included |
| ExpenseFilter.HasActiveFilters | components/Home/ExpenseFilter.tsx:48-49 | the banner shows when a category, a date range or a search text is present, the amount range not counting |
| ExpenseFilter.ClearFiltersShowsEverything | components/Home/ExpenseFilter.tsx:32-38 | after "Clear All" the banner is hidden and the view holds every expense |
| ExpenseFilter.InactiveFiltersShowEverything | components/Home/ExpenseFilter.tsx:48-49 | when the banner is hidden and no amount range is set, the view holds every expense |
| ExpenseFilter.AmountRangeIsNotReported | components/Home/ExpenseFilter.tsx:48-49 | an amount range alone hides an expense while the banner reports no active filter |
| ExpenseFilter.ChipHighlighted | components/Home/ExpenseFilter.tsx:75-77 | a chip is highlighted when it equals the category criterion, and "All" when that criterion is absent or empty |
| ExpenseFilter.OneChipHighlighted | components/Home/ExpenseFilter.tsx:75-77 | when the category is absent or a chip, exactly the chip `selectedCategory` names is highlighted |
| ExpenseFilter.NoChipForOtherCategory | components/Home/ExpenseFilter.tsx:75-77 | a category that is not a chip highlights no chip |
| ExpenseFilter.PressedChipIsHighlighted | components/Home/ExpenseFilter.tsx:18-23 | pressing a chip highlights that chip and no other |
| ExpenseFilter.PressedChipMatches | components/Home/ExpenseFilter.tsx:18-23 | after pressing a category chip an expense matches iff it matches the other criteria and has that category |
| ExpenseFilter.PressedChipFilters | components/Home/ExpenseFilter.tsx:18-23 | pressing a category chip narrows the view to that category and keeps the other criteria |
| AddExpenseForm.ErrorsFor | hooks/useAddExpenseForm.ts:34-48 | each field has its fixed message iff its check fails: empty or non-positive amount, no category, blank description |
| AddExpenseForm.AmountRejected | hooks/useAddExpenseForm.ts:37-39 | the amount check fails for an empty text or a text that parses to a number not above zero |
| AddExpenseForm.CategoryRejected | hooks/useAddExpenseForm.ts:41-43 | the category check fails when no category is picked |
| AddExpenseForm.DescriptionRejected | hooks/useAddExpenseForm.ts:45-47 | the description check fails when the trimmed text is empty |
| AddExpenseForm.WithField | hooks/useAddExpenseForm.ts:19-20 | the edited field takes the value; the other fields are unchanged |
| AddExpenseForm.WithoutError | hooks/useAddExpenseForm.ts:21-23 | the edited field's message is removed; the photo field has none; the others are kept |
| AddExpenseForm.DescriptionRejectedIffBlank | hooks/useAddExpenseForm.ts:45-47 | a description is rejected iff every character is white space |
| AddExpenseForm.UnparsableAmountAccepted | hooks/useAddExpenseForm.ts:37-39 | a non-empty amount that does not parse passes the amount check |
| AddExpenseForm.InitialFormFailsEveryCheck | hooks/useAddExpenseForm.ts:11-16 | the initial form fails all three checks |
| AddExpenseForm.EditAffectsOnlyItsCheck | hooks/useAddExpenseForm.ts:19-24 | editing a field can change only that field's check; the photo changes none |
| AddExpenseForm.FormState.constructor | hooks/useAddExpenseForm.ts:11-17 | empty fields, no photo, no errors |
| AddExpenseForm.FormState.UpdateField | hooks/useAddExpenseForm.ts:19-24 | the field takes the value and its message, if shown, is removed; errors keep holding only the fixed messages |
| AddExpenseForm.FormState.SetPhoto | hooks/useAddExpenseForm.ts:26-28 | the photo is set, everything else kept |
| AddExpenseForm.FormState.RemovePhoto | hooks/useAddExpenseForm.ts:30-32 | the photo is removed, everything else kept |
| AddExpenseForm.FormState.ValidateForm | hooks/useAddExpenseForm.ts:34-51 | the errors become exactly the failed checks' messages; the result is true iff all three checks pass; the form is unchanged |
| AddExpenseForm.FormState.ResetForm | hooks/useAddExpenseForm.ts:53-56 | back to the initial form with no errors |

## Left out

- Text.ToLower: maps only A-Z; the lower-casing of other Unicode letters is not modelled.
- Monobank.ToExpense: `Math.abs(amount / 100)` is exact decimal division here; floating-point rounding is not modelled.
- ExpenseViews.TotalAppend: sums are exact; floating-point addition, which is not associative, is not modelled.
- ExpenseChart.ColorOf: keys that name inherited object properties, such as "constructor", are not modelled.
- ExpenseChart.FirstAppearanceOrder: `Object.entries` lists integer-like keys first in numeric order; the model gives every key insertion order.
- ExpenseChart.FirstAppearanceSpec: inherited object property names as category keys are not modelled.
- ExpenseStore.Store.AddExpense: the React state updater runs later than the id check; the model runs both at once.
- ExpenseStore.Store.Initialize: the model loads before any other operation. An add that happens before the load finishes would be overwritten by the load; that race is not modelled.
- ExpenseStore.Store.ClearStorage: removing the slot always succeeds here. A failure is only logged by the program, so the slot would remain.
- ExpenseStore.Store.SaveEffect: writing the slot always succeeds here. A failure is only logged by the program.
- The JSON round trip of dates through the slot is taken to be exact: a loaded list equals the saved list.
- Loading flag, console logging and `formatDate`: not modelled, since they do not affect state.
- The notification service: a scheduled alert is a value appended to `alerts`; delivery and permissions are outside the model.
- Monobank.FetchMonobankTransactions: the token, the URLs and the 30-day window computed from the clock are not modelled. The statement responses are given per account id.
- The legend text: `toFixed(2)` formatting and the percentage division are not modelled. `ExpenseChart.TotalsMapSum` gives the fact they rely on.
- The time-filter presets component, the screens, navigation, photo capture and PDF export are not part of this model.
- `parseFloat` is a parameter rather than a definition, so which strings parse, and to what, is not modelled.
- Monobank.FetchMonobankAccounts: the exceptions of the client-info call (a rejected request, a body that is not JSON, a missing `accounts` list) are one case carrying an arbitrary message; which message each produces is not modelled.
- Monobank.ToExpense: a transaction id is taken to be a string already, so `tx.id.toString()` is the identity; the conversion of numeric ids to text is not modelled.
