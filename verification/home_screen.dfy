/** The figures of `src/screens/home/HomeScreen.tsx`: the current month's
    expenses and their total, the budget remaining and the share used, the
    six-month bar chart, and the short lists of recent expenses and
    upcoming subscriptions (with the badge their cards carry). */
module HomeScreen {
  import opened Wrappers
  import opened Seqs
  import opened Dates
  import opened Models
  import opened Helpers
  import opened Sorting

  // ---------------------------------------------------------------------
  // The current month

  /** `currentMonthExpenses`: the expenses from the start to the end of the
      month of `now`. */
  function CurrentMonthExpenses(es: seq<Expense>, now: Date): seq<Expense>
  {
    FilterExpensesByDateRange(es, StartOfMonth(now), EndOfMonth(now))
  }

  /** The current month's expenses are exactly those dated in the calendar
      month of `now`, every copy in stored order, and their total is that
      month's total. */
  lemma CurrentMonthIsCalendarMonth(es: seq<Expense>, now: Date)
    requires ValidDate(now) && DatesValid(es)
    ensures forall e :: e in CurrentMonthExpenses(es, now) <==>
              e in es && e.date.year == now.year && e.date.month == now.month
    ensures CurrentMonthExpenses(es, now) == ExpensesInMonth(es, MonthIndex(now))
    ensures CalculateTotalExpenses(CurrentMonthExpenses(es, now))
            == CalculateTotalExpenses(ExpensesInMonth(es, MonthIndex(now)))
  {
    MonthFilterIsCalendarMonth(es, now);
    FilterByDateRangeMembers(es, StartOfMonth(now), EndOfMonth(now));
    forall e | e in es
      ensures AtOrBefore(StartOfMonth(now), e.date) && AtOrBefore(e.date, EndOfMonth(now))
              <==> e.date.year == now.year && e.date.month == now.month
    {
      InMonthIff(now, e.date);
    }
  }

  // ---------------------------------------------------------------------
  // Budget overview

  /** `budget?.total || 0`. */
  function BudgetAmount(b: Option<Budget>): real
  {
    if b.Some? then b.value.total else 0.0
  }

  /** `remaining`: may be negative. */
  function Remaining(budgetAmount: real, spent: real): real
  {
    budgetAmount - spent
  }

  /** `percentUsed`: 0 unless the budget is positive. */
  function PercentUsed(budgetAmount: real, spent: real): real
  {
    if budgetAmount > 0.0 then spent / budgetAmount * 100.0 else 0.0
  }

  /** The progress bar's width, `Math.min(percentUsed, 100)`. */
  function BarWidth(percent: real): real
  {
    if percent < 100.0 then percent else 100.0
  }

  /** The bar turns to the error colour above 100 percent. */
  predicate OverBudget(percent: real)
  {
    percent > 100.0
  }

  /** With a positive budget the bar turns to the error colour exactly when
      the remaining amount is negative, and a non-negative spend keeps the
      bar between 0 and 100; without a budget the share is 0 whatever was
      spent. */
  lemma BudgetBar(budgetAmount: real, spent: real)
    ensures budgetAmount > 0.0 ==>
              (OverBudget(PercentUsed(budgetAmount, spent)) <==> Remaining(budgetAmount, spent) < 0.0)
    ensures budgetAmount > 0.0 && spent >= 0.0 ==>
              0.0 <= BarWidth(PercentUsed(budgetAmount, spent)) <= 100.0
    ensures budgetAmount <= 0.0 ==> PercentUsed(budgetAmount, spent) == 0.0
  {
    if budgetAmount > 0.0 {
      var share := spent / budgetAmount;
      assert share * budgetAmount == spent;
      if share > 1.0 {
        assert share * budgetAmount > 1.0 * budgetAmount;
      } else {
        assert share * budgetAmount <= 1.0 * budgetAmount;
      }
      assert spent >= 0.0 ==> share >= 0.0;
    }
  }

  /** From the stored budget to the bar: without a budget nothing counts as
      used and the whole spend shows as overdrawn; with a positive total
      the bar turns to the error colour exactly when the spend exceeds the
      total, and a non-negative spend keeps the width in 0 to 100. */
  lemma BudgetOverview(b: Option<Budget>, spent: real)
    ensures b.None? ==> PercentUsed(BudgetAmount(b), spent) == 0.0 && Remaining(BudgetAmount(b), spent) == -spent
    ensures b.Some? ==> Remaining(BudgetAmount(b), spent) == b.value.total - spent
    ensures b.Some? && b.value.total > 0.0 ==>
              (OverBudget(PercentUsed(BudgetAmount(b), spent)) <==> spent > b.value.total)
    ensures b.Some? && b.value.total > 0.0 && spent >= 0.0 ==>
              0.0 <= BarWidth(PercentUsed(BudgetAmount(b), spent)) <= 100.0
  {
    BudgetBar(BudgetAmount(b), spent);
  }

  // ---------------------------------------------------------------------
  // The six-month chart

  /** `getLastSixMonthsData`: counts `i` down from 5 to 0, pushing the label
      and the total of the month `i` months before `now`. */
  method GetLastSixMonthsData(es: seq<Expense>, now: Date) returns (labels: seq<string>, data: seq<real>)
    ensures |labels| == 6 && |data| == 6
    ensures forall k :: 0 <= k < 6 ==> labels[k] == MonthLabel(AddMonths(now, k - 5))
    ensures forall k :: 0 <= k < 6 ==> data[k] == MonthTotal(es, AddMonths(now, k - 5))
  {
    labels, data := [], [];
    ghost var months: seq<Date> := [];
    var i := 5;
    while i >= 0
      invariant -1 <= i <= 5
      invariant |months| == 5 - i && |labels| == 5 - i && |data| == 5 - i
      invariant forall k :: 0 <= k < 5 - i ==> months[k] == AddMonths(now, k - 5)
      invariant forall k :: 0 <= k < 5 - i ==> labels[k] == MonthLabel(months[k]) && data[k] == MonthTotal(es, months[k])
    {
      var month := AddMonths(now, -i);
      labels := labels + [MonthLabel(month)];
      data := data + [MonthTotal(es, month)];
      months := months + [month];
      i := i - 1;
    }
  }

  /** Bar `k` is the calendar month `5 - k` months before the current one:
      its value is the total of exactly that month's expenses, and the last
      bar is the current month. */
  lemma SixMonthBar(es: seq<Expense>, now: Date, k: int)
    requires ValidDate(now) && DatesValid(es) && 0 <= k < 6
    ensures MonthIndex(AddMonths(now, k - 5)) == MonthIndex(now) - 5 + k
    ensures MonthTotal(es, AddMonths(now, k - 5)) == CalculateTotalExpenses(ExpensesInMonth(es, MonthIndex(now) - 5 + k))
    ensures k == 5 ==> AddMonths(now, k - 5) == now
  {
    MonthTotalIsCalendarMonth(es, AddMonths(now, k - 5));
    AddMonthsMoves(now, 0);
  }

  // ---------------------------------------------------------------------
  // The short lists

  /** `currentMonthExpenses.slice(0, 3)`, shown as the recent expenses: the
      first three of the month in stored order. */
  function RecentExpenses(es: seq<Expense>, now: Date): seq<Expense>
  {
    Take(CurrentMonthExpenses(es, now), 3)
  }

  /** `upcomingSubscriptions.slice(0, 3)`. */
  function ShownUpcoming(subs: seq<Subscription>, now: Date): seq<Subscription>
  {
    Take(GetUpcomingSubscriptions(subs, now), 3)
  }

  /** At most three of each are shown, each one taken from its full list. */
  lemma ShortListsBounded(es: seq<Expense>, subs: seq<Subscription>, now: Date)
    ensures |RecentExpenses(es, now)| <= 3 && |ShownUpcoming(subs, now)| <= 3
    ensures forall e :: e in RecentExpenses(es, now) ==>
              e in es && AtOrBefore(StartOfMonth(now), e.date) && AtOrBefore(e.date, EndOfMonth(now))
    ensures forall s :: s in ShownUpcoming(subs, now) ==>
              s in subs && Before(now, s.nextBillingDate) && Before(s.nextBillingDate, AddMonths(now, 1))
  {
    FilterByDateRangeMembers(es, StartOfMonth(now), EndOfMonth(now));
    TakeMembers(CurrentMonthExpenses(es, now), 3);
    TakeMembers(GetUpcomingSubscriptions(subs, now), 3);
  }

  /** The "recent" list is not the most recent: when the month holds four
      expenses, stored oldest first, the newest one is left out. */
  lemma RecentOmitsNewest(es: seq<Expense>, now: Date, a: Expense, b: Expense, c: Expense, d: Expense)
    requires CurrentMonthExpenses(es, now) == [a, b, c, d]
    requires Before(a.date, d.date) && Before(b.date, d.date) && Before(c.date, d.date)
    ensures d !in RecentExpenses(es, now)
    ensures forall e :: e in RecentExpenses(es, now) ==> Before(e.date, d.date)
  {
    assert RecentExpenses(es, now) == [a, b, c];
  }

  /** The newest expenses of the month, newest first: the current month's
      expenses sorted by date, then the first three. */
  method RecentExpensesNewestFirst(es: seq<Expense>, now: Date) returns (shown: seq<Expense>)
    ensures |shown| == if |CurrentMonthExpenses(es, now)| < 3 then |CurrentMonthExpenses(es, now)| else 3
    ensures multiset(shown) <= multiset(CurrentMonthExpenses(es, now))
    ensures SortedByDate(shown, ExpenseDate, true)
    ensures forall x, y :: multiset(shown)[x] < multiset(CurrentMonthExpenses(es, now))[x] && y in shown
              ==> AtOrBefore(x.date, y.date)
  {
    shown := LatestFirst(CurrentMonthExpenses(es, now), ExpenseDate, 3);
  }

  // ---------------------------------------------------------------------
  // The card badge

  /** `sevenDaysFromNow.setDate(today.getDate() + 7)`: a week later, carried
      into the next month past the month's last day. */
  function AddWeek(d: Date): Date
  {
    if d.day + 7 <= DaysInMonth(d.year, d.month) then Date(d.year, d.month, d.day + 7, d.ms)
    else
      var next := AddMonths(Date(d.year, d.month, 1, d.ms), 1);
      Date(next.year, next.month, d.day + 7 - DaysInMonth(d.year, d.month), d.ms)
  }

  /** A week after a calendar date is a calendar date at the same time of
      day, strictly later, in the same month or the next. */
  lemma AddWeekIsLater(d: Date)
    requires ValidDate(d)
    ensures ValidDate(AddWeek(d)) && AddWeek(d).ms == d.ms
    ensures Before(d, AddWeek(d))
    ensures MonthIndex(AddWeek(d)) == MonthIndex(d) || MonthIndex(AddWeek(d)) == MonthIndex(d) + 1
  {
    if d.day + 7 > DaysInMonth(d.year, d.month) {
      var first := Date(d.year, d.month, 1, d.ms);
      var next := AddMonths(first, 1);
      assert MonthIndex(AddWeek(d)) == MonthIndex(next) == MonthIndex(d) + 1;
    }
  }

  /** `isUpcoming` of the subscription card: due from now to a week later,
      both included. */
  predicate UpcomingBadge(s: Subscription, now: Date)
  {
    AtOrBefore(now, s.nextBillingDate) && AtOrBefore(s.nextBillingDate, AddWeek(now))
  }

  /** The card's week and the list's month disagree: a subscription due in
      20 days is listed as upcoming without the badge, and one due this very
      instant has the badge but is not listed. */
  lemma BadgeAndListDisagree(s: Subscription, t: Subscription)
    requires s.nextBillingDate == Date(2024, 1, 21, 0)
    requires t.nextBillingDate == Date(2024, 1, 1, 0)
    ensures DueWithinAMonthOf(Date(2024, 1, 1, 0))(s) && !UpcomingBadge(s, Date(2024, 1, 1, 0))
    ensures !DueWithinAMonthOf(Date(2024, 1, 1, 0))(t) && UpcomingBadge(t, Date(2024, 1, 1, 0))
  {
    assert AddMonths(Date(2024, 1, 1, 0), 1) == Date(2024, 2, 1, 0);
    assert AddWeek(Date(2024, 1, 1, 0)) == Date(2024, 1, 8, 0);
  }
}
