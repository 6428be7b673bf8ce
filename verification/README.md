# Expenses manager: a Dafny model of the finance core

This project models the finance domain of a React Native expense and
subscription tracker. Expenses, subscriptions and one budget are kept in
device storage under three keys. The screens derive totals, category
breakdowns, monthly series, rankings and filtered, sorted lists from them.

The model covers:

- the domain records (`models.dfy`): eight expense categories, three
  billing cycles, expenses, subscriptions, and a budget whose
  per-category map is partial;
- the calendar operations the app borrows from date-fns (`dates.dfy`):
  `addMonths` with clamping to the last day of a shorter month,
  `startOfMonth`, `endOfMonth`, `eachMonthOfInterval`, the `'MMM'` label
  and the `getTime()` order;
- the analytics helpers (`helpers.dfy`):
  - next billing date;
  - inclusive date-range filter;
  - grouping by category, as a loop that updates an insertion-ordered
    object in place;
  - totals;
  - monthly-equivalent subscription cost;
  - pie-chart entries;
  - search;
  - upcoming subscriptions;
- the storage service (`storage.dfy`): a `Store` class with one field per
  storage key and one method per read-modify-write operation;
- the values the screens compute before rendering:
  - statistics: period, monthly series, top three categories, average
    (`statistics_screen.dfy`);
  - budget: loading into and parsing out of the form, sum of the category
    entries, unallocated remainder (`budget_screen.dfy`);
  - subscriptions: cycle filter, search, sort, monthly cost
    (`subscriptions_screen.dfy`);
  - expenses: filter pipeline, default, reset and quick ranges, total and
    count (`expenses_screen.dfy`);
  - home: current month, budget bar, six-month chart, short lists, the
    card's "upcoming" badge (`home_screen.dfy`);
- the list sort both list screens use (`sorting.dfy`): an in-place sort of
  a fresh copy of the list.

`seqs.dfy` (filter, subsequence, sums), `text.dfy` (`toLowerCase`, `trim`,
`includes`) and `wrappers.dfy` (`Option`) are shared support.

The model takes the following as parameters:

- The clock is a parameter `now`.
- A failing storage read or write is a boolean parameter.
- `parseFloat` is a function `parse: string -> Option<real>`, with `None`
  standing for `NaN`.
- `Number.prototype.toString` is a function `show: real -> string`.

Where a comment and the code disagree, the model follows the code.
`getUpcomingSubscriptions` is commented as "due in the next 7
days" (src/utils/helpers.ts:118), but it selects a one-month window, strictly
after now and strictly before the same moment a month later, and so does
the model.

The subscription card's "Upcoming" badge (inclusive, one week) and the home
screen's "next 30 days" copy disagree with that window as well.
`HomeScreen.BadgeAndListDisagree` records this with two concrete
subscriptions. The model does not reconcile the three.

## Model

| member | source | states |
|---|---|---|
| Models.CategoriesEnumerated | src/types/models.ts:1-9 | The category type has exactly eight values, each listed once in declaration order. |
| Models.CategoryNamesDistinct | src/types/models.ts:1-9 | Distinct categories are stored under distinct names. |
| Dates.AddMonths | src/utils/helpers.ts:32-41 | `addMonths(d, n)` lands exactly `n` calendar months away, keeps the day unless the target month is shorter (then its last day), keeps the time of day, and yields a calendar date from a calendar date. |
| Dates.AddMonthsMoves | src/utils/helpers.ts:32-41 | Adding a positive number of months moves a date strictly later, a negative number strictly earlier, and zero leaves it. |
| Dates.AddMonthsClampsToFebruary | src/utils/helpers.ts:34 | One month after 31 January is 29 February in a leap year and 28 February otherwise; a year after 29 February 2024 is 28 February 2025. |
| Dates.TimeValueOrder | src/utils/helpers.ts:53-54 | On calendar dates, `getTime()` orders by year, month, day and time of day, and two dates have equal time values exactly when they are equal. |
| Dates.InMonthIff | src/screens/home/HomeScreen.tsx:67-71 | A date lies between `startOfMonth(m)` and `endOfMonth(m)`, both included, exactly when it falls in the calendar month of `m`. |
| Dates.EachMonthOfInterval | src/screens/home/StatisticsScreen.tsx:80-83 | One first-of-month per month from the start's month to the end's month, consecutive, both ends included. |
| Text.ToLowerIdempotent | src/utils/helpers.ts:108 | Lower-casing twice is lower-casing once. |
| Text.ToLower | src/utils/helpers.ts:108 | `toLowerCase` keeps the length; lower-casing twice is once (Text.ToLowerIdempotent). |
| Text.Trim | src/utils/helpers.ts:108 | `trim` is a contiguous slice of the string with only white space cut off before and after it; it is empty exactly when the string is all white space, and otherwise starts and ends with a non-space character. |
| Text.TrimToLowerEmpty | src/screens/subscriptions/SubscriptionsScreen.tsx:55-56 | `search.trim()` is empty exactly when `search.toLowerCase().trim()` is, so the guard and the term agree. |
| Text.Contains | src/utils/helpers.ts:113-114 | `includes`: the term occurs at some index; Helpers.SearchExpensesByTerm and SubscriptionsScreen.BySearchMembers state the lists it selects. |
| Helpers.CalculateNextBillingDate | src/utils/helpers.ts:26-42 | The next billing date is 1, 3 or 12 calendar months after the start (same month of the next year when annual), never on a later day of the month, and strictly after a valid start. |
| Helpers.FilterExpensesByDateRange | src/utils/helpers.ts:45-57 | The inclusive date filter; what it keeps, with multiplicity and order, is stated by Helpers.FilterByDateRangeMembers. |
| Helpers.FilterByDateRangeMembers | src/utils/helpers.ts:45-57 | An expense is kept exactly when start ≤ its date ≤ end (equality inside at both ends), every stored copy of it, and the result keeps the stored order. |
| Helpers.FilterByDateRangeIdempotent | src/utils/helpers.ts:45-57 | Filtering twice by the same range is filtering once. |
| Helpers.MonthFilterIsCalendarMonth | src/screens/home/HomeScreen.tsx:67-71 | Filtering from `startOfMonth(m)` to `endOfMonth(m)` gives exactly the expenses of that calendar month, every copy, in stored order. |
| Helpers.LookupSet | src/utils/helpers.ts:64-67 | After `result[c] = v`, key `c` holds `v` and every other key holds what it held. |
| Helpers.SetTotal | src/utils/helpers.ts:64-67 | `result[c] = v` changes the sum of the values by `v` minus the previous value of `c`. |
| Helpers.GroupExpensesByCategory | src/utils/helpers.ts:60-71 | The `forEach` builds the grouping; a key is present exactly for each category that occurs, holding that category's sum; no key twice; the values add up to the total. |
| Helpers.GroupedLookup | src/utils/helpers.ts:60-71 | A category is a key of the grouping exactly when it occurs, and its value is the sum of that category's amounts (absent means none, never a stored 0). |
| Helpers.GroupedKeysDistinct | src/utils/helpers.ts:60-71 | The grouping holds each key once. |
| Helpers.GroupedTotal | src/utils/helpers.ts:60-76 | The grouped values sum to `calculateTotalExpenses` of the same expenses. |
| Helpers.CalculateTotalExpenses | src/utils/helpers.ts:74-76 | The `reduce` total; Helpers.TotalNonNegative, Helpers.TotalConcat and Helpers.TotalPermutation state its laws. |
| Helpers.TotalNonNegative | src/utils/helpers.ts:74-76 | The total of no expenses is 0, and non-negative amounts total a non-negative sum. |
| Helpers.TotalConcat | src/utils/helpers.ts:74-76 | The total is additive over concatenation. |
| Helpers.TotalPermutation | src/utils/helpers.ts:74-76 | Reordering the expenses leaves the total unchanged. |
| Helpers.MonthlyEquivalent | src/utils/helpers.ts:81-87 | A subscription costs its amount per month if monthly, a third of it if quarterly, a twelfth if annual; non-negative amounts cost non-negative. |
| Helpers.CalculateMonthlySubscriptionCost | src/utils/helpers.ts:79-91 | The summed monthly equivalents; the Helpers.MonthlyCost lemmas state its sign, additivity, scaling and order independence. |
| Helpers.MonthlyCostNonNegative | src/utils/helpers.ts:79-91 | Non-negative amounts give a non-negative monthly cost. |
| Helpers.MonthlyCostConcat | src/utils/helpers.ts:79-91 | The monthly cost is additive over concatenation. |
| Helpers.MonthlyCostScales | src/utils/helpers.ts:79-91 | Multiplying every amount by `k` multiplies the monthly cost by `k`. |
| Helpers.MonthlyCostPermutation | src/utils/helpers.ts:79-91 | Reordering the subscriptions leaves the monthly cost unchanged. |
| Helpers.MonthlyCostExample | src/utils/helpers.ts:79-91 | 15 monthly, 90 quarterly and 1200 annual cost 145 a month. |
| Helpers.CategoryColorsCover | src/constants/theme.ts:97-106 | Every category has its own entry in the colour table, so the fallback colour is never used for one. |
| Helpers.FormatDataForPieChart | src/utils/helpers.ts:94-104 | One slice per grouping entry in entry order, named by the category with the amount copied and the category's table colour; the slice amounts add up to the grouped values. |
| Helpers.NormalizeTerm | src/utils/helpers.ts:108 | The lower-cased, trimmed term; Text.Trim and Text.TrimToLowerEmpty state when it is blank. |
| Helpers.ExpenseMatches | src/utils/helpers.ts:112-115 | The match test; Helpers.SearchExpensesByTerm states the list it selects. |
| Helpers.SearchExpensesByTerm | src/utils/helpers.ts:107-116 | A term blank after lower-casing and trimming returns the input itself; otherwise exactly the expenses whose lower-cased description or category name contains the term, every copy, in their order. |
| Helpers.GetUpcomingSubscriptions | src/utils/helpers.ts:118-130 | Exactly the subscriptions billed strictly after `now` and strictly before `addMonths(now, 1)`, every copy, in their order. |
| Helpers.MonthTotalIsCalendarMonth | src/screens/home/StatisticsScreen.tsx:86-91 | A month's chart value, the total between `startOfMonth` and `endOfMonth`, is the total of exactly that calendar month's expenses. |
| Helpers.MonthStartTotal | src/screens/home/StatisticsScreen.tsx:86-91 | The same, for the month with a given index. |
| Storage.ReplaceById | src/services/storageService.ts:34-36 | The `map` keeps the length and every id, puts the new record at each position with its id, and leaves every other record in place. |
| Storage.RemoveById | src/services/storageService.ts:47 | The `filter` keeps exactly the records whose id differs, every copy, in their order; none with that id remains. |
| Storage.ReplaceAbsentId | src/services/storageService.ts:31-37 | Updating an id that is not stored changes nothing. |
| Storage.ReplaceIdempotent | src/services/storageService.ts:31-37 | Updating twice with the same record is updating once. |
| Storage.ReplaceAfterAppend | src/services/storageService.ts:10-37 | Updating a freshly saved record replaces exactly that record. |
| Storage.RemoveAbsentId | src/services/storageService.ts:44-48 | Deleting an id that is not stored leaves the collection as it was. |
| Storage.RemoveAfterAppend | src/services/storageService.ts:10-53 | Deleting a freshly saved record restores the collection. |
| Storage.UniqueIdsPreserved | src/services/storageService.ts:10-53 | Saving a record with a new id, updating and deleting keep ids unique. |
| Storage.ReadOrEmpty | src/services/storageService.ts:21-29 | A read gives the stored list, or an empty list when the key is absent or the read throws. |
| Storage.SaveOnFailedReadDropsStored | src/services/storageService.ts:10-29 | When the read inside a save throws, the write stores only the new expense, not the stored list plus it. |
| Storage.SaveAfterFailedReadLosesStored | src/services/storageService.ts:10-29 | With a non-empty list stored, a save whose read throws followed by a read gives back only the new expense, not the stored list plus it. |
| Storage.Store.constructor | src/services/storageService.ts:5-7 | A fresh store holds none of the three keys. |
| Storage.Store.GetExpenses | src/services/storageService.ts:21-29 | Returns the stored expenses, or an empty list when absent or when the read throws; changes nothing. |
| Storage.Store.SaveExpense | src/services/storageService.ts:10-19 | Writes the list read plus the new expense at the end, or fails and leaves the key; touches no other key. |
| Storage.Store.SaveExpenseChecked | src/services/storageService.ts:10-19 | The corrected save: a failed read aborts, and the stored list is always a prefix of the new one. |
| Storage.Store.UpdateExpense | src/services/storageService.ts:31-42 | Writes the list read with every record of the same id replaced, or fails and leaves the key; touches no other key. |
| Storage.Store.DeleteExpense | src/services/storageService.ts:44-53 | Writes the list read without the records of that id, or fails and leaves the key; touches no other key. |
| Storage.Store.GetSubscriptions | src/services/storageService.ts:67-75 | As for expenses, on the subscriptions key. |
| Storage.Store.SaveSubscription | src/services/storageService.ts:56-65 | As for expenses, on the subscriptions key only. |
| Storage.Store.UpdateSubscription | src/services/storageService.ts:77-88 | As for expenses, on the subscriptions key only. |
| Storage.Store.DeleteSubscription | src/services/storageService.ts:90-101 | As for expenses, on the subscriptions key only. |
| Storage.Store.SaveBudget | src/services/storageService.ts:104-111 | Overwrites the budget wholesale, or fails and leaves it; touches no other key. |
| Storage.Store.GetBudget | src/services/storageService.ts:113-121 | The stored budget, `None` when absent or when the read throws. |
| Storage.Store.ClearAllData | src/services/storageService.ts:124-131 | Removes all three keys, or fails and leaves all three. |
| Storage.SaveThenDeleteExpense | src/services/storageService.ts:10-53 | A saved expense is read back at the end, and deleting it restores the list read before. |
| Storage.SaveThenGetBudget | src/services/storageService.ts:104-121 | A saved budget is what the next read returns. |
| Sorting.InOrderLaws | src/screens/expenses/ExpensesScreen.tsx:84-86 | The date comparator is total and transitive in both directions. |
| Sorting.SortByDate | src/screens/subscriptions/SubscriptionsScreen.tsx:66-68 | The in-place sort leaves the array ordered by the comparator and a permutation of what it held. |
| Sorting.SortedCopy | src/screens/expenses/ExpensesScreen.tsx:84 | `[...s].sort(...)`: a sorted permutation of `s`, of the same length. |
| StatisticsScreen.RangeStart | src/screens/home/StatisticsScreen.tsx:52-63 | The period starts 3, 6 or 12 calendar months before `now`, strictly before it. |
| StatisticsScreen.PeriodExpenses | src/screens/home/StatisticsScreen.tsx:65-72 | The period's expenses are exactly those from the range start to `now`, both included, every copy, in stored order. |
| StatisticsScreen.MonthLabels | src/screens/home/StatisticsScreen.tsx:85 | One `'MMM'` label per month, in order. |
| StatisticsScreen.MonthTotals | src/screens/home/StatisticsScreen.tsx:86-91 | One value per month, the month's total over the whole (unfiltered) list. |
| StatisticsScreen.MonthlyExpensesData | src/screens/home/StatisticsScreen.tsx:79-94 | The series has one label and one value per month of the period, the current month included. |
| StatisticsScreen.MonthlyPointMonth | src/screens/home/StatisticsScreen.tsx:79-94 | Point `k` is labelled and valued by the `k`-th calendar month from the range start's month. |
| StatisticsScreen.InsertByAmount | src/screens/home/StatisticsScreen.tsx:100-101 | Inserting one entry adds exactly that entry. |
| StatisticsScreen.InsertByAmountSorted | src/screens/home/StatisticsScreen.tsx:100-101 | Inserting into a largest-first list keeps it largest first. |
| StatisticsScreen.SortByAmountDesc | src/screens/home/StatisticsScreen.tsx:100-101 | The sort gives a permutation of the entries, largest amount first; its stability is StatisticsScreen.SortByAmountDescStable. |
| StatisticsScreen.InsertByAmountStable | src/screens/home/StatisticsScreen.tsx:100-101 | Inserting into a largest-first list places the entry after every entry of its own amount and moves none of them. |
| StatisticsScreen.SortByAmountDescStable | src/screens/home/StatisticsScreen.tsx:100-101 | The sort is stable: the entries of any one amount come out in the grouping order. |
| StatisticsScreen.PrefixHoldsLargest | src/screens/home/StatisticsScreen.tsx:102 | A prefix of a largest-first list holds its largest entries. |
| StatisticsScreen.GetTopCategories | src/screens/home/StatisticsScreen.tsx:99-104 | At most three entries, all taken from the grouping with their grouped amounts, largest first, and no entry left out is larger than one shown. |
| StatisticsScreen.TopKeepsTieOrder | src/screens/home/StatisticsScreen.tsx:99-104 | Among the top entries, those of one amount are the first of that amount in grouping order. |
| StatisticsScreen.AverageMonthlySpending | src/screens/home/StatisticsScreen.tsx:112-113 | The average times the number of months is the total; with no months the total itself. |
| StatisticsScreen.StatisticsFor | src/screens/home/StatisticsScreen.tsx:65-113 | The period total is that of the period's expenses, the pie slices add up to it, the top list is at most three and largest first, and the average divides by the number of months of the period. |
| BudgetScreen.EmptyTextsComplete | src/screens/expenses/BudgetScreen.tsx:70-79 | The initial record holds `''` for every category. |
| BudgetScreen.TextsOf | src/screens/expenses/BudgetScreen.tsx:70-84 | The texts loaded from a budget; BudgetScreen.CategoryTexts and BudgetScreen.LoadThenSaveKeepsCategories state them. |
| BudgetScreen.CategoryTexts | src/screens/expenses/BudgetScreen.tsx:70-84 | The `forEach` leaves each category of the budget holding its amount as text and every other one `''`. |
| BudgetScreen.LoadBudgetData | src/screens/expenses/BudgetScreen.tsx:63-95 | With a stored budget, the form shows its total, its per-category texts and the panel when some text is non-empty; without one the form is left as it was. |
| BudgetScreen.ShowsPanelIffCategoryBudgets | src/screens/expenses/BudgetScreen.tsx:88-90 | The category panel opens exactly when the budget has some per-category amount. |
| BudgetScreen.ParsedCategories | src/screens/expenses/BudgetScreen.tsx:106-113 | The categories saving stores; BudgetScreen.ParseCategoryBudgets and BudgetScreen.HandleSave state them. |
| BudgetScreen.ParseCategoryBudgets | src/screens/expenses/BudgetScreen.tsx:106-113 | A category is saved exactly when its text is non-empty and parses, with the parsed amount; all others are absent. |
| BudgetScreen.LoadThenSaveKeepsCategories | src/screens/expenses/BudgetScreen.tsx:63-118 | Loading a budget and saving the form unchanged gives back its per-category amounts, when amounts parse back from their text. |
| BudgetScreen.HandleSave | src/screens/expenses/BudgetScreen.tsx:97-128 | An empty or unparseable total is refused and nothing is written; otherwise the parsed total and categories are stored, unless the write fails, which leaves the budget as it was. |
| BudgetScreen.CategoryBudgetsSum | src/screens/expenses/BudgetScreen.tsx:138-141 | The sum under the inputs; BudgetScreen.CategoryBudgetsSumIsSaved states what it adds up. |
| BudgetScreen.CategoryBudgetsSumIsSaved | src/screens/expenses/BudgetScreen.tsx:138-141 | The sum under the inputs, each empty or unparseable entry counting 0, is the sum of what saving would store. |
| BudgetScreen.TotalBudgetValue | src/screens/expenses/BudgetScreen.tsx:144-146 | The parsed total, 0 when empty or unparseable; BudgetScreen.UnallocatedIsTotalMinusSaved states its use. |
| BudgetScreen.UnallocatedBudget | src/screens/expenses/BudgetScreen.tsx:148 | The remainder; BudgetScreen.UnallocatedIsTotalMinusSaved states it for every form. |
| BudgetScreen.UnallocatedIsTotalMinusSaved | src/screens/expenses/BudgetScreen.tsx:138-148 | For a total that saving accepts, the unallocated amount is the saved total less the sum of the saved per-category amounts; for an empty or unparseable total it is minus that sum. |
| BudgetScreen.UnallocatedExample | src/screens/expenses/BudgetScreen.tsx:144-148 | With 300 for food, 200 for transport and nothing else, the total minus 500 is unallocated, negative when the total is below 500. |
| SubscriptionsScreen.ByCycleMembers | src/screens/subscriptions/SubscriptionsScreen.tsx:49-52 | With `'All'` every subscription is kept, otherwise exactly those of the selected cycle, every copy, in their order. |
| SubscriptionsScreen.BySearchMembers | src/screens/subscriptions/SubscriptionsScreen.tsx:55-63 | A blank search keeps everything; otherwise exactly those whose lower-cased name, non-empty service, present description or category contains the trimmed lower-cased term, every copy, in their order. |
| SubscriptionsScreen.Selected | src/screens/subscriptions/SubscriptionsScreen.tsx:49-63 | The cycle stage then the search stage; SubscriptionsScreen.SelectedMembers and SubscriptionsScreen.SelectedIsSubsequence state the result. |
| SubscriptionsScreen.SelectedMembers | src/screens/subscriptions/SubscriptionsScreen.tsx:49-63 | A subscription is listed exactly when stored, of the selected cycle and matching a non-blank search, as often as it is stored. |
| SubscriptionsScreen.SelectedIsSubsequence | src/screens/subscriptions/SubscriptionsScreen.tsx:47-63 | Before sorting, the listed subscriptions keep their stored order. |
| SubscriptionsScreen.SelectAllKeepsEverything | src/screens/subscriptions/SubscriptionsScreen.tsx:49-63 | `'All'` with a blank search lists the stored list unchanged. |
| SubscriptionsScreen.ApplyFilters | src/screens/subscriptions/SubscriptionsScreen.tsx:42-71 | The result is a permutation of the selected subscriptions, a sub-multiset of the input (which is only read), sorted by next billing date soonest first, and its monthly cost is that of the selection. |
| ExpensesScreen.CurrentMonthRange | src/screens/expenses/ExpensesScreen.tsx:38-41 | The current month, start to end; ExpensesScreen.CurrentMonthRangeIsCurrentMonth states it. |
| ExpensesScreen.DefaultFilters | src/screens/expenses/ExpensesScreen.tsx:278-284 | Every category, no search, the current month; ExpensesScreen.DefaultFiltersListCurrentMonth states what they list. |
| ExpensesScreen.CurrentMonthRangeIsCurrentMonth | src/screens/expenses/ExpensesScreen.tsx:38-41 | The default range holds `now`, and a date lies in it exactly when it falls in the current calendar month. |
| ExpensesScreen.QuickRange | src/screens/expenses/ExpensesScreen.tsx:139-143 | The quick range; ExpensesScreen.QuickRangeStart states its ends. |
| ExpensesScreen.QuickRangeStart | src/screens/expenses/ExpensesScreen.tsx:139-143 | A quick range ends at `now` and starts `n` calendar months earlier, strictly before `now` when `n` is positive; its 3, 6 and 12 month starts are the statistics screen's. |
| ExpensesScreen.Filtered | src/screens/expenses/ExpensesScreen.tsx:63-81 | The three stages in order; ExpensesScreen.FilteredMembers and ExpensesScreen.FilteredIsSubsequence state the result. |
| ExpensesScreen.FilteredMembers | src/screens/expenses/ExpensesScreen.tsx:63-81 | An expense is listed exactly when stored, within the range, of the selected category unless `'All'`, and matching a non-blank search term, as often as it is stored. |
| ExpensesScreen.FilteredIsSubsequence | src/screens/expenses/ExpensesScreen.tsx:63-81 | Before sorting, the listed expenses keep their stored order. |
| ExpensesScreen.ApplyFilters | src/screens/expenses/ExpensesScreen.tsx:63-89 | The list is a permutation of the filtered expenses, a sub-multiset of those stored, sorted newest first, with the same total as the filtered ones. |
| ExpensesScreen.SummaryOf | src/screens/expenses/ExpensesScreen.tsx:146 | The total and count shown; ExpensesScreen.DefaultFiltersListCurrentMonth and ExpensesScreen.ApplyFilters state them. |
| ExpensesScreen.DefaultFiltersListCurrentMonth | src/screens/expenses/ExpensesScreen.tsx:278-284 | The filters the screen starts with and resets to list exactly the current calendar month's expenses in stored order, so the summary shows that month's total and number of expenses, at most the number stored. |
| HomeScreen.CurrentMonthExpenses | src/screens/home/HomeScreen.tsx:67-71 | The month of `now`, start to end; HomeScreen.CurrentMonthIsCalendarMonth states it. |
| HomeScreen.CurrentMonthIsCalendarMonth | src/screens/home/HomeScreen.tsx:67-73 | The current month's expenses are exactly those dated in the month of `now`, every copy in stored order, and their total is that month's total. |
| HomeScreen.PercentUsed | src/screens/home/HomeScreen.tsx:80 | The share used; HomeScreen.BudgetBar states it. |
| HomeScreen.BarWidth | src/screens/home/HomeScreen.tsx:164 | The capped bar width; HomeScreen.BudgetBar states its bounds. |
| HomeScreen.OverBudget | src/screens/home/HomeScreen.tsx:165 | The error colour test; HomeScreen.BudgetBar states when it holds. |
| HomeScreen.BudgetAmount | src/screens/home/HomeScreen.tsx:78 | The stored total, 0 without a budget; HomeScreen.BudgetOverview states it. |
| HomeScreen.Remaining | src/screens/home/HomeScreen.tsx:79 | The total less the month's spend, possibly negative; HomeScreen.BudgetOverview states it. |
| HomeScreen.BudgetBar | src/screens/home/HomeScreen.tsx:79-80 | For any budget amount: when it is positive the bar turns to the error colour exactly when the remaining amount is negative, and a non-negative spend keeps the bar width in 0 to 100; when it is not positive the share used is 0. |
| HomeScreen.BudgetOverview | src/screens/home/HomeScreen.tsx:78-80 | Without a stored budget the share used is 0 and the remaining amount is minus the spend; with one the remaining amount is its total less the spend, and for a positive total the bar turns to the error colour exactly when the spend exceeds the total, its width staying in 0 to 100 for a non-negative spend. |
| HomeScreen.GetLastSixMonthsData | src/screens/home/HomeScreen.tsx:83-99 | Six labels and six values, the `k`-th for the month `5 - k` months before `now`, oldest first. |
| HomeScreen.SixMonthBar | src/screens/home/HomeScreen.tsx:83-99 | Bar `k` is the calendar month `5 - k` months back, valued at exactly that month's total; the last bar is the current month. |
| HomeScreen.RecentExpenses | src/screens/home/HomeScreen.tsx:231-233 | The first three of the month; HomeScreen.ShortListsBounded and HomeScreen.RecentOmitsNewest state it. |
| HomeScreen.ShownUpcoming | src/screens/home/HomeScreen.tsx:266-268 | The first three upcoming; HomeScreen.ShortListsBounded states it. |
| HomeScreen.ShortListsBounded | src/screens/home/HomeScreen.tsx:231-233 | At most three recent expenses and three upcoming subscriptions are shown, each from its full list. |
| HomeScreen.RecentOmitsNewest | src/screens/home/HomeScreen.tsx:231-233 | The "recent" list is the first three of the month in stored order, so a newer fourth expense is left out. |
| HomeScreen.RecentExpensesNewestFirst | src/screens/home/HomeScreen.tsx:231-233 | The corrected list: the (at most) three latest of the month, newest first, none left out later than one shown. |
| HomeScreen.AddWeek | src/components/subscriptions/SubscriptionCard.tsx:20-21 | A week after a calendar date; HomeScreen.AddWeekIsLater states it. |
| HomeScreen.AddWeekIsLater | src/components/subscriptions/SubscriptionCard.tsx:20-21 | A week after a calendar date is a calendar date at the same time of day, strictly later, in the same month or the next. |
| HomeScreen.UpcomingBadge | src/components/subscriptions/SubscriptionCard.tsx:17-24 | The inclusive one-week badge; HomeScreen.BadgeAndListDisagree compares it with the upcoming list. |
| HomeScreen.BadgeAndListDisagree | src/components/subscriptions/SubscriptionCard.tsx:17-24 | The card's inclusive one-week badge and the strict one-month upcoming list disagree in both directions on concrete dates. |

## Left out

- Asynchrony is not modelled: every storage call completes before the next begins. So lost updates between concurrent read-modify-write calls are not modelled.
- JSON serialisation is not modelled: the stored value is the value written.
- Floating point is not modelled: amounts are reals. Rounding, `toFixed` and `NaN` arithmetic are not modelled, except that `parseFloat` answering `NaN` is the parameter `parse` answering `None`.
- `formatCurrency`, `formatDate` and all rendering, navigation, charts and alerts are left out, because they only present values.
- `generateId` (Math.random) is left out: ids are inputs.
- The ISO date strings are not parsed: dates arrive as calendar records. Local time is assumed, without time zones or daylight saving.
- `toLowerCase` maps only the ASCII letters. Unicode case mapping is not modelled.
- Helpers.CalculateNextBillingDate: the `default` branch of the cycle switch cannot be reached with the closed cycle type, so it is not modelled.
- StatisticsScreen.RangeStart: likewise for the `default` branch of the period switch.
- Sorting.SortByDate: `Array.prototype.sort` is modelled as an insertion sort. The model states sortedness and permutation, not stability. The same holds for Sorting.SortedCopy, Sorting.LatestFirst, SubscriptionsScreen.ApplyFilters, ExpensesScreen.ApplyFilters and HomeScreen.RecentExpensesNewestFirst, which sort with it: the order among equal dates is not stated.
- StatisticsScreen.MonthlyExpensesData: its contract states only the length. What each point holds is stated pointwise by StatisticsScreen.MonthlyPointMonth and Helpers.MonthStartTotal.
- Storage.Store.ClearAllData: `multiRemove` is taken to remove all three keys or none. A partial removal is not modelled.
- The form edits (`updateCategoryBudget`, the date pickers, the text inputs) are left out: they set form fields, and the model takes the form's contents as inputs.
- The add/edit and settings screens, the subscription icon lookup, theming and user preferences are not part of this model.

## Findings

| source | as written | input that shows it | evidently intended | confidence | as-written member | corrected member |
|---|---|---|---|---|---|---|
| src/services/storageService.ts:10-29 | `saveExpense` appends to what `getExpenses` returns, and `getExpenses` turns a failing read into `[]` | two expenses stored; the read throws during `saveExpense(e3)`, the write succeeds; the stored list becomes `[e3]` | a failed read aborts the save, so stored records are never lost (the same holds for update and delete, and for subscriptions) | not executed | Storage.SaveAfterFailedReadLosesStored | Storage.Store.SaveExpenseChecked |
| src/screens/home/HomeScreen.tsx:231-233 | the "Recent Expenses" card shows `currentMonthExpenses.slice(0, 3)`, the first three in stored (insertion) order | four expenses this month, saved oldest first: the newest is not shown | the three latest expenses of the month, newest first | not executed | HomeScreen.RecentOmitsNewest | HomeScreen.RecentExpensesNewestFirst |
