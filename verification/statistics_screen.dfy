/** The figures of `src/screens/home/StatisticsScreen.tsx`: the selected
    period, the category pie, the monthly line chart, the top three
    categories, the period total and the average per month. */
module StatisticsScreen {
  import opened Seqs
  import opened Dates
  import opened Models
  import opened Helpers

  /** The period selector: `'3months'`, `'6months'` or `'1year'`. */
  datatype TimeRange = ThreeMonths | SixMonths | OneYear

  function RangeMonths(t: TimeRange): nat
  {
    match t
    case ThreeMonths => 3
    case SixMonths => 6
    case OneYear => 12
  }

  /** `getTimeRangeDate`: the selected number of months before `now`. */
  function RangeStart(now: Date, t: TimeRange): (r: Date)
    ensures MonthIndex(r) == MonthIndex(now) - RangeMonths(t)
    ensures ValidDate(now) ==> ValidDate(r) && Before(r, now)
  {
    AddMonthsMoves(now, -(RangeMonths(t) as int));
    AddMonths(now, -(RangeMonths(t) as int))
  }

  /** `filteredExpenses`: the expenses from the range start to `now`. */
  function PeriodExpenses(es: seq<Expense>, now: Date, t: TimeRange): (r: seq<Expense>)
    ensures forall e :: e in r <==> e in es && AtOrBefore(RangeStart(now, t), e.date) && AtOrBefore(e.date, now)
    ensures forall e :: multiset(r)[e]
              == if AtOrBefore(RangeStart(now, t), e.date) && AtOrBefore(e.date, now) then multiset(es)[e] else 0
    ensures IsSubsequence(r, es)
  {
    FilterByDateRangeMembers(es, RangeStart(now, t), now);
    FilterExpensesByDateRange(es, RangeStart(now, t), now)
  }

  // ---------------------------------------------------------------------
  // Monthly trend

  /** The line chart's labels and values. */
  datatype MonthlySeries = MonthlySeries(labels: seq<string>, data: seq<real>)

  /** `months.map(month => format(month, 'MMM'))`. */
  function MonthLabels(months: seq<Date>): (r: seq<string>)
    requires forall k :: 0 <= k < |months| ==> 1 <= months[k].month <= 12
    ensures |r| == |months|
    ensures forall k :: 0 <= k < |r| ==> r[k] == MonthLabel(months[k])
  {
    if months == [] then []
    else MonthLabels(months[..|months| - 1]) + [MonthLabel(months[|months| - 1])]
  }

  /** `months.map(month => calculateTotalExpenses(filterExpensesByDateRange(
      expenses, startOfMonth(month), endOfMonth(month))))`. */
  function MonthTotals(es: seq<Expense>, months: seq<Date>): (r: seq<real>)
    ensures |r| == |months|
    ensures forall k :: 0 <= k < |r| ==> r[k] == MonthTotal(es, months[k])
  {
    if months == [] then []
    else MonthTotals(es, months[..|months| - 1]) + [MonthTotal(es, months[|months| - 1])]
  }

  /** `getMonthlyExpensesData`: one point per calendar month of the period,
      labelled with the month's abbreviation and valued at the total of
      that month over the whole expense list (not the filtered one). */
  function MonthlyExpensesData(es: seq<Expense>, now: Date, t: TimeRange): (r: MonthlySeries)
    requires ValidDate(now)
    ensures |r.labels| == |r.data| == RangeMonths(t) + 1
  {
    var months := EachMonthOfInterval(RangeStart(now, t), now);
    MonthlySeries(MonthLabels(months), MonthTotals(es, months))
  }

  /** Point `k` of the line chart is the `k`-th month from the range
      start's month, so the last point is the current month. */
  lemma MonthlyPointMonth(es: seq<Expense>, now: Date, t: TimeRange, k: nat)
    requires ValidDate(now) && k <= RangeMonths(t)
    ensures MonthlyExpensesData(es, now, t).labels[k] == MonthLabel(MonthStart(MonthIndex(now) - RangeMonths(t) + k))
    ensures MonthlyExpensesData(es, now, t).data[k] == MonthTotal(es, MonthStart(MonthIndex(now) - RangeMonths(t) + k))
  {
    var months := EachMonthOfInterval(RangeStart(now, t), now);
    assert months[k] == MonthStart(MonthIndex(now) - RangeMonths(t) + k);
  }

  // ---------------------------------------------------------------------
  // Top categories

  /** Every entry is at least as large as every later one. */
  predicate NonIncreasing(s: seq<CategoryAmount>)
  {
    forall i, j :: 0 <= i < j < |s| ==> s[i].amount >= s[j].amount
  }

  /** Every entry is at least as large as the next one. */
  predicate AdjacentNonIncreasing(s: seq<CategoryAmount>)
  {
    forall i :: 0 < i < |s| ==> s[i - 1].amount >= s[i].amount
  }

  lemma {:induction false} AdjacentIsNonIncreasing(s: seq<CategoryAmount>)
    requires AdjacentNonIncreasing(s)
    ensures NonIncreasing(s)
  {
    if s != [] {
      var n := |s| - 1;
      AdjacentIsNonIncreasing(s[..n]);
      forall i | 0 <= i < n ensures s[i].amount >= s[n].amount {
        assert s[..n][i] == s[i] && s[..n][n - 1] == s[n - 1];
      }
      forall i, j | 0 <= i < j < n ensures s[i].amount >= s[j].amount {
        assert s[..n][i] == s[i] && s[..n][j] == s[j];
      }
    }
  }

  /** Places `x` after every leading entry of `s` whose amount is at least
      its own, so equal amounts keep their order. */
  function InsertByAmount(x: CategoryAmount, s: seq<CategoryAmount>): (r: seq<CategoryAmount>)
    ensures multiset(r) == multiset(s) + multiset{x}
    ensures |r| == |s| + 1
    ensures r[0] == x || (s != [] && r[0] == s[0])
  {
    if s == [] then [x]
    else if s[0].amount >= x.amount then
      assert s == [s[0]] + s[1..];
      [s[0]] + InsertByAmount(x, s[1..])
    else
      [x] + s
  }

  /** Inserting into a non-increasing list keeps it non-increasing. */
  lemma {:induction false} InsertByAmountSorted(x: CategoryAmount, s: seq<CategoryAmount>)
    requires AdjacentNonIncreasing(s)
    ensures AdjacentNonIncreasing(InsertByAmount(x, s))
  {
    if s != [] && s[0].amount >= x.amount {
      var rest := InsertByAmount(x, s[1..]);
      InsertByAmountSorted(x, s[1..]);
      var r := [s[0]] + rest;
      assert |s| > 1 ==> s[0].amount >= s[1].amount;
      forall i | 0 < i < |r| ensures r[i - 1].amount >= r[i].amount {
        if i > 1 {
          assert r[i - 1] == rest[i - 2] && r[i] == rest[i - 1];
        }
      }
    }
  }

  /** `.sort(([, a], [, b]) => b - a)` on the entries: largest amount first,
      ties in key order (the sort is stable). */
  function SortByAmountDesc(g: seq<CategoryAmount>): (r: seq<CategoryAmount>)
    ensures multiset(r) == multiset(g)
    ensures AdjacentNonIncreasing(r)
  {
    if g == [] then []
    else
      assert g == g[..|g| - 1] + [g[|g| - 1]];
      InsertByAmountSorted(g[|g| - 1], SortByAmountDesc(g[..|g| - 1]));
      InsertByAmount(g[|g| - 1], SortByAmountDesc(g[..|g| - 1]))
  }

  /** The entries whose amount is `v`. */
  function AmountIs(v: real): CategoryAmount -> bool
  {
    (c: CategoryAmount) => c.amount == v
  }

  /** Inserting `x` puts it after every entry of its own amount already
      there and moves no such entry. */
  lemma {:induction false} InsertByAmountStable(x: CategoryAmount, s: seq<CategoryAmount>, v: real)
    requires AdjacentNonIncreasing(s)
    ensures Filter(AmountIs(v), InsertByAmount(x, s)) == Filter(AmountIs(v), s) + Filter(AmountIs(v), [x])
  {
    var p := AmountIs(v);
    if s == [] {
      assert InsertByAmount(x, s) == [x];
    } else if s[0].amount >= x.amount {
      var rest := InsertByAmount(x, s[1..]);
      assert InsertByAmount(x, s) == [s[0]] + rest;
      AdjacentNonIncreasingTail(s);
      InsertByAmountStable(x, s[1..], v);
      FilterConsShift(p, s, rest, Filter(p, [x]));
    } else {
      assert InsertByAmount(x, s) == [x] + s;
      FilterConcat(p, [x], s);
      if x.amount == v {
        AdjacentIsNonIncreasing(s);
        FilterNone(p, s);
      }
    }
  }

  lemma AdjacentNonIncreasingTail(s: seq<CategoryAmount>)
    requires s != [] && AdjacentNonIncreasing(s)
    ensures AdjacentNonIncreasing(s[1..])
  {
    forall i | 0 < i < |s| - 1 ensures s[1..][i - 1].amount >= s[1..][i].amount {
      assert s[1..][i - 1] == s[i] && s[1..][i] == s[i + 1];
    }
  }

  /** The sort is stable: the entries of any one amount come out in the
      order they went in. */
  lemma {:induction false} SortByAmountDescStable(g: seq<CategoryAmount>, v: real)
    ensures Filter(AmountIs(v), SortByAmountDesc(g)) == Filter(AmountIs(v), g)
  {
    if g != [] {
      var n := |g| - 1;
      SortByAmountDescStable(g[..n], v);
      InsertByAmountStable(g[n], SortByAmountDesc(g[..n]), v);
      FilterSnoc(AmountIs(v), g);
    }
  }

  /** Among the top entries, those of one amount are the first of that
      amount in the grouping order. */
  lemma TopKeepsTieOrder(g: seq<CategoryAmount>, v: real)
    ensures Filter(AmountIs(v), GetTopCategories(g)) <= Filter(AmountIs(v), g)
  {
    FilterTake(AmountIs(v), SortByAmountDesc(g), 3);
    SortByAmountDescStable(g, v);
  }

  /** A prefix of a sorted list holds its largest entries. */
  lemma PrefixHoldsLargest(s: seq<CategoryAmount>, n: nat)
    requires NonIncreasing(s) && n <= |s|
    ensures forall x, y :: multiset(s[..n])[x] < multiset(s)[x] && y in s[..n] ==> x.amount <= y.amount
  {
    assert s == s[..n] + s[n..];
    forall x, y | multiset(s[..n])[x] < multiset(s)[x] && y in s[..n]
      ensures x.amount <= y.amount
    {
      assert multiset(s)[x] == multiset(s[..n])[x] + multiset(s[n..])[x];
      assert x in s[n..];
      var j :| 0 <= j < |s[n..]| && s[n..][j] == x;
      var i :| 0 <= i < n && s[..n][i] == y;
      assert s[i] == y && s[n + j] == x;
    }
  }

  lemma TopIsNonIncreasing(sorted: seq<CategoryAmount>)
    requires AdjacentNonIncreasing(sorted)
    ensures NonIncreasing(Take(sorted, 3))
  {
    AdjacentIsNonIncreasing(sorted);
  }

  lemma TopIsSubMultiset(sorted: seq<CategoryAmount>)
    ensures multiset(Take(sorted, 3)) <= multiset(sorted)
  {
    var n := |Take(sorted, 3)|;
    assert sorted == sorted[..n] + sorted[n..];
    assert Take(sorted, 3) == sorted[..n];
  }

  lemma TopIsLargest(sorted: seq<CategoryAmount>)
    requires AdjacentNonIncreasing(sorted)
    ensures forall x, y :: multiset(Take(sorted, 3))[x] < multiset(sorted)[x] && y in Take(sorted, 3)
              ==> x.amount <= y.amount
  {
    var n := |Take(sorted, 3)|;
    assert Take(sorted, 3) == sorted[..n];
    AdjacentIsNonIncreasing(sorted);
    PrefixHoldsLargest(sorted, n);
  }

  /** `getTopCategories`: the (at most) three largest entries, largest
      first; every entry left out is no larger than any entry shown. */
  function GetTopCategories(g: seq<CategoryAmount>): (r: seq<CategoryAmount>)
    ensures |r| == if |g| < 3 then |g| else 3
    ensures NonIncreasing(r)
    ensures multiset(r) <= multiset(g)
    ensures forall x, y :: multiset(r)[x] < multiset(g)[x] && y in r ==> x.amount <= y.amount
  {
    var sorted := SortByAmountDesc(g);
    TopIsNonIncreasing(sorted);
    TopIsSubMultiset(sorted);
    TopIsLargest(sorted);
    Take(sorted, 3)
  }

  // ---------------------------------------------------------------------
  // Average

  /** `monthCount = labels.length || 1; total / monthCount`. */
  function AverageMonthlySpending(total: real, labelCount: nat): (r: real)
    ensures labelCount > 0 ==> r * (labelCount as real) == total
    ensures labelCount == 0 ==> r == total
  {
    total / (if labelCount == 0 then 1 else labelCount) as real
  }

  /** Everything the screen shows for one period. */
  datatype Statistics = Statistics(
    pie: seq<PieSlice>,
    monthly: MonthlySeries,
    top: seq<CategoryAmount>,
    total: real,
    average: real)

  function StatisticsFor(es: seq<Expense>, now: Date, t: TimeRange): (r: Statistics)
    requires ValidDate(now)
    ensures r.total == CalculateTotalExpenses(PeriodExpenses(es, now, t))
    ensures Sum(SliceAmount, r.pie) == r.total
    ensures |r.top| <= 3 && NonIncreasing(r.top)
    ensures r.average == AverageMonthlySpending(r.total, RangeMonths(t) + 1)
  {
    var filtered := PeriodExpenses(es, now, t);
    var grouped := Grouped(filtered);
    var total := CalculateTotalExpenses(filtered);
    var pie := FormatDataForPieChart(grouped);
    assert Sum(SliceAmount, pie) == total by {
      GroupedTotal(filtered);
    }
    var top := GetTopCategories(grouped);
    var monthly := MonthlyExpensesData(es, now, t);
    var average := AverageMonthlySpending(total, |monthly.labels|);
    assert average == AverageMonthlySpending(total, RangeMonths(t) + 1);
    Statistics(pie, monthly, top, total, average)
  }
}
