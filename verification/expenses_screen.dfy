/** The list of `src/screens/expenses/ExpensesScreen.tsx`: the stored
    expenses narrowed by date range, category and search, newest first,
    with their total and count; and the date ranges the screen starts
    with, resets to and offers as quick choices. */
module ExpensesScreen {
  import opened Seqs
  import opened Dates
  import opened Models
  import opened Helpers
  import opened Sorting
  import StatisticsScreen

  /** The category selector: `'All'` or one category. */
  datatype CategoryFilter = AllCategories | OnlyCategory(category: Category)

  datatype DateRange = DateRange(startDate: Date, endDate: Date)

  /** The filter inputs of the screen. */
  datatype Filters = Filters(category: CategoryFilter, searchTerm: string, range: DateRange)

  // ---------------------------------------------------------------------
  // Date ranges

  /** `startOfMonth(new Date())` to `endOfMonth(new Date())`. */
  function CurrentMonthRange(now: Date): DateRange
  {
    DateRange(StartOfMonth(now), EndOfMonth(now))
  }

  /** The filters the screen starts with and the reset button restores:
      every category, no search, the current month. */
  function DefaultFilters(now: Date): Filters
  {
    Filters(AllCategories, "", CurrentMonthRange(now))
  }

  /** The default range holds `now`, and an expense lies in it exactly when
      it is dated in the current calendar month. */
  lemma CurrentMonthRangeIsCurrentMonth(now: Date, d: Date)
    requires ValidDate(now) && ValidDate(d)
    ensures AtOrBefore(CurrentMonthRange(now).startDate, now) && AtOrBefore(now, CurrentMonthRange(now).endDate)
    ensures AtOrBefore(CurrentMonthRange(now).startDate, d) && AtOrBefore(d, CurrentMonthRange(now).endDate)
            <==> d.year == now.year && d.month == now.month
  {
    InMonthIff(now, now);
    InMonthIff(now, d);
  }

  /** `setQuickDateRange(months)`: from `months` months before `now` to
      `now`. */
  function QuickRange(now: Date, months: nat): DateRange
  {
    DateRange(AddMonths(now, -(months as int)), now)
  }

  /** The quick range starts `months` calendar months back, strictly before
      `now` for any positive count, and its three buttons give the same
      start as the statistics screen's period selector. */
  lemma QuickRangeStart(now: Date, months: nat)
    requires ValidDate(now)
    ensures MonthIndex(QuickRange(now, months).startDate) == MonthIndex(now) - months
    ensures months > 0 ==> Before(QuickRange(now, months).startDate, now)
    ensures QuickRange(now, 3).startDate == StatisticsScreen.RangeStart(now, StatisticsScreen.ThreeMonths)
    ensures QuickRange(now, 6).startDate == StatisticsScreen.RangeStart(now, StatisticsScreen.SixMonths)
    ensures QuickRange(now, 12).startDate == StatisticsScreen.RangeStart(now, StatisticsScreen.OneYear)
  {
    AddMonthsMoves(now, -(months as int));
  }

  // ---------------------------------------------------------------------
  // The filter effect

  predicate CategoryMatches(f: CategoryFilter, e: Expense)
  {
    f.AllCategories? || e.category == f.category
  }

  function CategoryMatchesOf(f: CategoryFilter): Expense -> bool
  {
    (e: Expense) => CategoryMatches(f, e)
  }

  /** The category stage: skipped for `'All'`. */
  function ByCategory(es: seq<Expense>, f: CategoryFilter): seq<Expense>
  {
    if f.AllCategories? then es else Filter(CategoryMatchesOf(f), es)
  }

  /** The search stage: skipped for an empty term. */
  function BySearch(es: seq<Expense>, term: string): seq<Expense>
  {
    if term == "" then es else SearchExpensesByTerm(es, term)
  }

  /** The three filter stages, in order: date range, category, search. */
  function Filtered(es: seq<Expense>, f: Filters): seq<Expense>
  {
    BySearch(ByCategory(FilterExpensesByDateRange(es, f.range.startDate, f.range.endDate), f.category), f.searchTerm)
  }

  /** The category stage keeps every copy of the expenses of the selected
      category and nothing else. */
  lemma ByCategoryCounts(es: seq<Expense>, f: CategoryFilter)
    ensures forall e :: multiset(ByCategory(es, f))[e] == if CategoryMatches(f, e) then multiset(es)[e] else 0
  {
    if !f.AllCategories? {
      FilterMultiset(CategoryMatchesOf(f), es);
    }
  }

  /** The search stage keeps every copy of the matching expenses, or all of
      them for a blank term. */
  lemma BySearchCounts(es: seq<Expense>, term: string)
    ensures forall e :: multiset(BySearch(es, term))[e]
              == if NormalizeTerm(term) == [] || ExpenseMatches(e, NormalizeTerm(term)) then multiset(es)[e] else 0
  {
    if term == "" {
      assert NormalizeTerm(term) == [];
    }
  }

  /** An expense is listed exactly when it is stored, dated within the
      range (both ends included), of the selected category, and matches the
      search unless the term is blank; it is listed as often as it is
      stored. */
  lemma FilteredMembers(es: seq<Expense>, f: Filters)
    ensures forall e :: multiset(Filtered(es, f))[e] ==
              if AtOrBefore(f.range.startDate, e.date) && AtOrBefore(e.date, f.range.endDate)
                 && CategoryMatches(f.category, e)
                 && (NormalizeTerm(f.searchTerm) == [] || ExpenseMatches(e, NormalizeTerm(f.searchTerm)))
              then multiset(es)[e] else 0
    ensures forall e :: e in Filtered(es, f) <==>
              e in es && AtOrBefore(f.range.startDate, e.date) && AtOrBefore(e.date, f.range.endDate)
              && CategoryMatches(f.category, e)
              && (NormalizeTerm(f.searchTerm) == [] || ExpenseMatches(e, NormalizeTerm(f.searchTerm)))
  {
    var dated := FilterExpensesByDateRange(es, f.range.startDate, f.range.endDate);
    var byCategory := ByCategory(dated, f.category);
    FilterByDateRangeMembers(es, f.range.startDate, f.range.endDate);
    ByCategoryCounts(dated, f.category);
    BySearchCounts(byCategory, f.searchTerm);
    forall e ensures e in Filtered(es, f) <==> multiset(Filtered(es, f))[e] > 0 {
    }
    forall e ensures e in es <==> multiset(es)[e] > 0 {
    }
  }

  /** The filtered expenses keep their stored order before sorting. */
  lemma FilteredIsSubsequence(es: seq<Expense>, f: Filters)
    ensures IsSubsequence(Filtered(es, f), es)
  {
    var dated := FilterExpensesByDateRange(es, f.range.startDate, f.range.endDate);
    var byCategory := ByCategory(dated, f.category);
    FilterByDateRangeMembers(es, f.range.startDate, f.range.endDate);
    if f.category.AllCategories? {
      SubsequenceReflexive(dated);
    } else {
      FilterIsSubsequence(CategoryMatchesOf(f.category), dated);
    }
    SubsequenceTransitive(byCategory, dated, es);
    if f.searchTerm == "" {
      SubsequenceReflexive(byCategory);
    }
    SubsequenceTransitive(Filtered(es, f), byCategory, es);
  }

  /** The effect of the screen: reassigns the working list stage by stage,
      then sorts a copy by date, newest first. */
  method ApplyFilters(expenses: seq<Expense>, f: Filters) returns (result: seq<Expense>)
    ensures multiset(result) == multiset(Filtered(expenses, f))
    ensures multiset(result) <= multiset(expenses)
    ensures SortedByDate(result, ExpenseDate, true)
    ensures CalculateTotalExpenses(result) == CalculateTotalExpenses(Filtered(expenses, f))
  {
    var staged := expenses;
    staged := FilterExpensesByDateRange(staged, f.range.startDate, f.range.endDate);
    if !f.category.AllCategories? {
      staged := Filter(CategoryMatchesOf(f.category), staged);
    }
    if f.searchTerm != "" {
      staged := SearchExpensesByTerm(staged, f.searchTerm);
    }
    assert staged == Filtered(expenses, f);
    result := SortedCopy(staged, ExpenseDate, true);
    FilteredIsSubsequence(expenses, f);
    SubsequenceSubMultiset(staged, expenses);
    TotalPermutation(result, staged);
  }

  /** The summary card: the total and the number of listed expenses. */
  datatype Summary = Summary(total: real, count: nat)

  function SummaryOf(listed: seq<Expense>): Summary
  {
    Summary(CalculateTotalExpenses(listed), |listed|)
  }

  /** The default filters list exactly the current month's expenses, in
      stored order and with every copy, so the summary counts and totals
      that calendar month; the count is bounded by the number stored. */
  lemma DefaultFiltersListCurrentMonth(es: seq<Expense>, now: Date)
    requires ValidDate(now) && DatesValid(es)
    ensures forall e :: e in Filtered(es, DefaultFilters(now)) <==>
              e in es && e.date.year == now.year && e.date.month == now.month
    ensures Filtered(es, DefaultFilters(now)) == ExpensesInMonth(es, MonthIndex(now))
    ensures SummaryOf(Filtered(es, DefaultFilters(now)))
            == Summary(CalculateTotalExpenses(ExpensesInMonth(es, MonthIndex(now))), |ExpensesInMonth(es, MonthIndex(now))|)
    ensures SummaryOf(Filtered(es, DefaultFilters(now))).count <= |es|
  {
    MonthFilterIsCalendarMonth(es, now);
    FilteredMembers(es, DefaultFilters(now));
    forall e | e in es
      ensures AtOrBefore(StartOfMonth(now), e.date) && AtOrBefore(e.date, EndOfMonth(now))
              <==> e.date.year == now.year && e.date.month == now.month
    {
      InMonthIff(now, e.date);
    }
    FilteredIsSubsequence(es, DefaultFilters(now));
    SubsequenceSubMultiset(Filtered(es, DefaultFilters(now)), es);
  }
}
