/** The analytics helpers of `src/utils/helpers.ts`: billing-date
    projection, date-range filtering, grouping by category, totals,
    monthly-equivalent subscription cost, pie-chart entries, search and the
    upcoming-subscription selector. */
module Helpers {
  import opened Wrappers
  import opened Seqs
  import opened Text
  import opened Dates
  import opened Models

  // ---------------------------------------------------------------------
  // calculateNextBillingDate

  /** Months in one billing cycle: `addMonths(d, 1)`, `addQuarters(d, 1)`
      and `addYears(d, 1)`. */
  function CycleMonths(c: Cycle): nat
  {
    match c
    case Monthly => 1
    case Quarterly => 3
    case Annual => 12
  }

  /** `calculateNextBillingDate`: one cycle after the start date. */
  function CalculateNextBillingDate(start: Date, cycle: Cycle): (r: Date)
    ensures cycle == Monthly ==> MonthIndex(r) == MonthIndex(start) + 1
    ensures cycle == Quarterly ==> MonthIndex(r) == MonthIndex(start) + 3
    ensures cycle == Annual && 1 <= start.month <= 12 ==> r.year == start.year + 1 && r.month == start.month
    ensures r.day <= start.day && r.ms == start.ms
    ensures ValidDate(start) ==> ValidDate(r) && Before(start, r)
  {
    AddMonthsMoves(start, CycleMonths(cycle));
    AddMonths(start, CycleMonths(cycle))
  }

  // ---------------------------------------------------------------------
  // filterExpensesByDateRange

  /** The test of `filterExpensesByDateRange`: after the start or at the
      same instant, and before the end or at the same instant. */
  predicate InRange(d: Date, start: Date, end: Date)
  {
    (Before(start, d) || TimeValue(d) == TimeValue(start)) && (Before(d, end) || TimeValue(d) == TimeValue(end))
  }

  function InRangeOf(start: Date, end: Date): Expense -> bool
  {
    (e: Expense) => InRange(e.date, start, end)
  }

  /** `filterExpensesByDateRange`: the expenses dated within `[start, end]`,
      in their stored order. */
  function FilterExpensesByDateRange(es: seq<Expense>, start: Date, end: Date): seq<Expense>
  {
    Filter(InRangeOf(start, end), es)
  }

  /** The filter keeps exactly the expenses dated from `start` to `end`,
      both included, in their stored order. */
  lemma FilterByDateRangeMembers(es: seq<Expense>, start: Date, end: Date)
    ensures forall e :: e in FilterExpensesByDateRange(es, start, end)
              <==> e in es && AtOrBefore(start, e.date) && AtOrBefore(e.date, end)
    ensures IsSubsequence(FilterExpensesByDateRange(es, start, end), es)
    ensures forall e :: multiset(FilterExpensesByDateRange(es, start, end))[e]
              == if AtOrBefore(start, e.date) && AtOrBefore(e.date, end) then multiset(es)[e] else 0
  {
    FilterIsSubsequence(InRangeOf(start, end), es);
    FilterMultiset(InRangeOf(start, end), es);
  }

  lemma FilterByDateRangeIdempotent(es: seq<Expense>, start: Date, end: Date)
    ensures FilterExpensesByDateRange(FilterExpensesByDateRange(es, start, end), start, end)
            == FilterExpensesByDateRange(es, start, end)
  {
    FilterIdempotent(InRangeOf(start, end), es);
  }

  // ---------------------------------------------------------------------
  // calculateTotalExpenses

  /** `calculateTotalExpenses`: the sum of the amounts. */
  function CalculateTotalExpenses(es: seq<Expense>): real
  {
    Sum(ExpenseAmount, es)
  }

  /** No expenses total zero; non-negative amounts total a non-negative
      sum. */
  lemma TotalNonNegative(es: seq<Expense>)
    ensures CalculateTotalExpenses([]) == 0.0
    ensures (forall i :: 0 <= i < |es| ==> es[i].amount >= 0.0) ==> CalculateTotalExpenses(es) >= 0.0
  {
    if forall i :: 0 <= i < |es| ==> es[i].amount >= 0.0 {
      SumNonNegative(ExpenseAmount, es);
    }
  }

  lemma TotalConcat(a: seq<Expense>, b: seq<Expense>)
    ensures CalculateTotalExpenses(a + b) == CalculateTotalExpenses(a) + CalculateTotalExpenses(b)
  {
    SumConcat(ExpenseAmount, a, b);
  }

  /** Reordering a list does not change its total. */
  lemma TotalPermutation(a: seq<Expense>, b: seq<Expense>)
    requires multiset(a) == multiset(b)
    ensures CalculateTotalExpenses(a) == CalculateTotalExpenses(b)
  {
    SumPermutation(ExpenseAmount, a, b);
  }

  // ---------------------------------------------------------------------
  // groupExpensesByCategory

  /** One property of the object `groupExpensesByCategory` returns. The
      object is a sequence of these in the order its keys were first set,
      which is the order `Object.entries` reports them in. */
  datatype CategoryAmount = CategoryAmount(category: Category, amount: real)

  function EntryAmount(x: CategoryAmount): real { x.amount }

  /** `result[c]`: the amount stored under `c`, if the key is present. */
  function Lookup(g: seq<CategoryAmount>, c: Category): Option<real>
  {
    if g == [] then None
    else if g[0].category == c then Some(g[0].amount)
    else Lookup(g[1..], c)
  }

  /** `result[c] = v`: overwrites the value of an existing key in its place,
      or adds the key after all the others. */
  function Set(g: seq<CategoryAmount>, c: Category, v: real): seq<CategoryAmount>
  {
    if g == [] then [CategoryAmount(c, v)]
    else if g[0].category == c then [CategoryAmount(c, v)] + g[1..]
    else [g[0]] + Set(g[1..], c, v)
  }

  /** Each key occurs once: no key is found again after its entry. */
  predicate DistinctKeys(g: seq<CategoryAmount>)
  {
    g == [] || (Lookup(g[1..], g[0].category).None? && DistinctKeys(g[1..]))
  }

  /** A key is found exactly when some entry carries it. */
  lemma {:induction false} LookupFindsKey(g: seq<CategoryAmount>, c: Category)
    ensures Lookup(g, c).Some? <==> exists i :: 0 <= i < |g| && g[i].category == c
  {
    if g != [] && g[0].category != c {
      LookupFindsKey(g[1..], c);
      if exists i :: 0 <= i < |g| && g[i].category == c {
        var i :| 0 <= i < |g| && g[i].category == c;
        assert g[1..][i - 1] == g[i];
      }
    }
  }

  /** After `result[c] = v`, key `c` holds `v` and every other key holds
      what it held before. */
  lemma {:induction false} LookupSet(g: seq<CategoryAmount>, c: Category, v: real, d: Category)
    ensures Lookup(Set(g, c, v), d) == if d == c then Some(v) else Lookup(g, d)
  {
    if g != [] && g[0].category != c {
      LookupSet(g[1..], c, v, d);
    }
  }

  /** Setting a key to the value it holds changes nothing. */
  lemma {:induction false} SetSame(g: seq<CategoryAmount>, c: Category, v: real)
    requires Lookup(g, c) == Some(v)
    ensures Set(g, c, v) == g
  {
    if g[0].category != c {
      SetSame(g[1..], c, v);
    } else {
      assert g == [g[0]] + g[1..];
    }
  }

  /** Setting a key twice keeps the second value. */
  lemma {:induction false} SetSet(g: seq<CategoryAmount>, c: Category, v: real, w: real)
    ensures Set(Set(g, c, v), c, w) == Set(g, c, w)
  {
    if g != [] && g[0].category != c {
      SetSet(g[1..], c, v, w);
      assert Set(g, c, v)[1..] == Set(g[1..], c, v);
    }
  }

  lemma {:induction false} SetKeepsDistinct(g: seq<CategoryAmount>, c: Category, v: real)
    requires DistinctKeys(g)
    ensures DistinctKeys(Set(g, c, v))
  {
    if g != [] {
      if g[0].category == c {
        assert Set(g, c, v)[1..] == g[1..];
      } else {
        SetKeepsDistinct(g[1..], c, v);
        LookupSet(g[1..], c, v, g[0].category);
        assert Set(g, c, v)[1..] == Set(g[1..], c, v);
      }
    }
  }

  /** `result[c] = v` changes the sum of the values by `v` minus what `c`
      held (nothing when absent). */
  lemma {:induction false} SetTotal(g: seq<CategoryAmount>, c: Category, v: real)
    ensures Sum(EntryAmount, Set(g, c, v)) == Sum(EntryAmount, g) - Lookup(g, c).GetOr(0.0) + v
  {
    if g == [] {
      SumSingle(EntryAmount, CategoryAmount(c, v));
    } else {
      assert g == [g[0]] + g[1..];
      SumConcat(EntryAmount, [g[0]], g[1..]);
      SumSingle(EntryAmount, g[0]);
      if g[0].category == c {
        SumConcat(EntryAmount, [CategoryAmount(c, v)], g[1..]);
        SumSingle(EntryAmount, CategoryAmount(c, v));
      } else {
        SetTotal(g[1..], c, v);
        SumConcat(EntryAmount, [g[0]], Set(g[1..], c, v));
      }
    }
  }

  /** The expenses include one of category `c`. */
  predicate Occurs(es: seq<Expense>, c: Category)
  {
    exists i :: 0 <= i < |es| && es[i].category == c
  }

  /** The sum of the amounts of the expenses of category `c`. */
  function CategorySum(es: seq<Expense>, c: Category): real
  {
    if es == [] then 0.0
    else CategorySum(es[..|es| - 1], c) + (if es[|es| - 1].category == c then es[|es| - 1].amount else 0.0)
  }

  /** One call of the `forEach` callback, as its two statements leave the
      object: the key of the expense's category holds its previous value (0
      when absent) plus the amount. */
  function AddToGroup(g: seq<CategoryAmount>, e: Expense): seq<CategoryAmount>
  {
    Set(g, e.category, Lookup(g, e.category).GetOr(0.0) + e.amount)
  }

  /** The object `groupExpensesByCategory` builds, one expense at a time. */
  function Grouped(es: seq<Expense>): seq<CategoryAmount>
  {
    if es == [] then [] else AddToGroup(Grouped(es[..|es| - 1]), es[|es| - 1])
  }

  /** The keys absent from the result contribute nothing. */
  lemma {:induction false} CategorySumAbsent(es: seq<Expense>, c: Category)
    requires !Occurs(es, c)
    ensures CategorySum(es, c) == 0.0
  {
    if es != [] {
      var p := es[..|es| - 1];
      assert !Occurs(p, c) by {
        forall i | 0 <= i < |p| ensures p[i].category != c {
          assert p[i] == es[i];
        }
      }
      CategorySumAbsent(p, c);
    }
  }

  lemma OccursSnoc(es: seq<Expense>, c: Category)
    requires es != []
    ensures Occurs(es, c) <==> Occurs(es[..|es| - 1], c) || es[|es| - 1].category == c
  {
    var p := es[..|es| - 1];
    if Occurs(p, c) {
      var j :| 0 <= j < |p| && p[j].category == c;
      assert es[j] == p[j];
    }
    if Occurs(es, c) && es[|es| - 1].category != c {
      var j :| 0 <= j < |es| && es[j].category == c;
      assert j < |p| && p[j] == es[j];
    }
  }

  /** The grouping holds a key exactly for each category that occurs, with
      that category's sum as its value. */
  lemma {:induction false} GroupedLookup(es: seq<Expense>, c: Category)
    ensures Lookup(Grouped(es), c) == if Occurs(es, c) then Some(CategorySum(es, c)) else None
  {
    if es != [] {
      var p, e := es[..|es| - 1], es[|es| - 1];
      var v := Lookup(Grouped(p), e.category).GetOr(0.0) + e.amount;
      assert Grouped(es) == Set(Grouped(p), e.category, v);
      assert CategorySum(es, c) == CategorySum(p, c) + if e.category == c then e.amount else 0.0;
      GroupedLookup(p, c);
      LookupSet(Grouped(p), e.category, v, c);
      OccursSnoc(es, c);
      if !Occurs(p, c) {
        CategorySumAbsent(p, c);
      }
    }
  }

  /** No key is stored twice. */
  lemma {:induction false} GroupedKeysDistinct(es: seq<Expense>)
    ensures DistinctKeys(Grouped(es))
  {
    if es != [] {
      var p, e := es[..|es| - 1], es[|es| - 1];
      GroupedKeysDistinct(p);
      SetKeepsDistinct(Grouped(p), e.category, Lookup(Grouped(p), e.category).GetOr(0.0) + e.amount);
    }
  }

  /** The values of the grouping add up to the total of the expenses. */
  lemma {:induction false} GroupedTotal(es: seq<Expense>)
    ensures Sum(EntryAmount, Grouped(es)) == CalculateTotalExpenses(es)
  {
    if es != [] {
      var p, e := es[..|es| - 1], es[|es| - 1];
      GroupedTotal(p);
      SetTotal(Grouped(p), e.category, Lookup(Grouped(p), e.category).GetOr(0.0) + e.amount);
    }
  }

  /** `groupExpensesByCategory`: a `forEach` that updates the result object
      in place. */
  method GroupExpensesByCategory(es: seq<Expense>) returns (result: seq<CategoryAmount>)
    ensures result == Grouped(es)
    ensures forall c :: Lookup(result, c) == if Occurs(es, c) then Some(CategorySum(es, c)) else None
    ensures DistinctKeys(result)
    ensures Sum(EntryAmount, result) == CalculateTotalExpenses(es)
  {
    result := [];
    for n := 0 to |es|
      invariant result == Grouped(es[..n])
    {
      var e := es[n];
      var before := result;
      // `if (!result[cat]) result[cat] = 0`: also taken when the key holds 0
      if Lookup(result, e.category).GetOr(0.0) == 0.0 {
        if Lookup(result, e.category).Some? {
          SetSame(result, e.category, 0.0);
        }
        result := Set(result, e.category, 0.0);
      }
      LookupSet(before, e.category, 0.0, e.category);
      SetSet(before, e.category, 0.0, Lookup(before, e.category).GetOr(0.0) + e.amount);
      result := Set(result, e.category, Lookup(result, e.category).GetOr(0.0) + e.amount);
      assert es[..n + 1][..n] == es[..n];
    }
    assert es[..|es|] == es;
    forall c {
      GroupedLookup(es, c);
    }
    GroupedKeysDistinct(es);
    GroupedTotal(es);
  }

  // ---------------------------------------------------------------------
  // calculateMonthlySubscriptionCost

  /** A subscription's cost per month: the amount itself, a third of it for
      a quarterly cycle, a twelfth of it for an annual one. */
  function MonthlyEquivalent(s: Subscription): (r: real)
    ensures s.cycle == Monthly ==> r == s.amount
    ensures s.cycle == Quarterly ==> 3.0 * r == s.amount
    ensures s.cycle == Annual ==> 12.0 * r == s.amount
    ensures s.amount >= 0.0 ==> r >= 0.0
  {
    if s.cycle == Quarterly then s.amount / 3.0
    else if s.cycle == Annual then s.amount / 12.0
    else s.amount
  }

  /** `calculateMonthlySubscriptionCost`. */
  function CalculateMonthlySubscriptionCost(subs: seq<Subscription>): real
  {
    Sum(MonthlyEquivalent, subs)
  }

  /** Non-negative amounts cost a non-negative sum per month. */
  lemma MonthlyCostNonNegative(subs: seq<Subscription>)
    requires forall i :: 0 <= i < |subs| ==> subs[i].amount >= 0.0
    ensures CalculateMonthlySubscriptionCost(subs) >= 0.0
  {
    SumNonNegative(MonthlyEquivalent, subs);
  }

  lemma MonthlyCostConcat(a: seq<Subscription>, b: seq<Subscription>)
    ensures CalculateMonthlySubscriptionCost(a + b)
            == CalculateMonthlySubscriptionCost(a) + CalculateMonthlySubscriptionCost(b)
  {
    SumConcat(MonthlyEquivalent, a, b);
  }

  lemma MonthlyCostPermutation(a: seq<Subscription>, b: seq<Subscription>)
    requires multiset(a) == multiset(b)
    ensures CalculateMonthlySubscriptionCost(a) == CalculateMonthlySubscriptionCost(b)
  {
    SumPermutation(MonthlyEquivalent, a, b);
  }

  /** Every subscription's amount multiplied by `k`. */
  function ScaleAmounts(subs: seq<Subscription>, k: real): (r: seq<Subscription>)
    ensures |r| == |subs|
  {
    seq(|subs|, i requires 0 <= i < |subs| => subs[i].(amount := k * subs[i].amount))
  }

  /** The monthly equivalent is linear in the amount. */
  lemma MonthlyEquivalentScales(s: Subscription, k: real)
    ensures MonthlyEquivalent(s.(amount := k * s.amount)) == k * MonthlyEquivalent(s)
  {
    var m := MonthlyEquivalent(s);
    var t := s.(amount := k * s.amount);
    match s.cycle
    case Monthly =>
    case Quarterly =>
      assert 3.0 * m == s.amount;
      assert 3.0 * (k * m) == k * s.amount;
      assert 3.0 * MonthlyEquivalent(t) == k * s.amount;
    case Annual =>
      assert 12.0 * m == s.amount;
      assert 12.0 * (k * m) == k * s.amount;
      assert 12.0 * MonthlyEquivalent(t) == k * s.amount;
  }

  lemma ScaledTerms(subs: seq<Subscription>, k: real)
    ensures forall i :: 0 <= i < |subs| ==> MonthlyEquivalent(ScaleAmounts(subs, k)[i]) == k * MonthlyEquivalent(subs[i])
  {
    forall i | 0 <= i < |subs| ensures MonthlyEquivalent(ScaleAmounts(subs, k)[i]) == k * MonthlyEquivalent(subs[i]) {
      MonthlyEquivalentScales(subs[i], k);
    }
  }

  /** Scaling every amount by `k` scales the monthly cost by `k`. */
  lemma MonthlyCostScales(subs: seq<Subscription>, k: real)
    ensures CalculateMonthlySubscriptionCost(ScaleAmounts(subs, k)) == k * CalculateMonthlySubscriptionCost(subs)
  {
    ScaledTerms(subs, k);
    SumScale(MonthlyEquivalent, subs, MonthlyEquivalent, ScaleAmounts(subs, k), k);
  }

  /** 15 monthly, 90 quarterly and 1200 annual cost 15 + 30 + 100 a month. */
  lemma MonthlyCostExample(m: Subscription, q: Subscription, a: Subscription)
    requires m.amount == 15.0 && m.cycle == Monthly
    requires q.amount == 90.0 && q.cycle == Quarterly
    requires a.amount == 1200.0 && a.cycle == Annual
    ensures CalculateMonthlySubscriptionCost([m, q, a]) == 145.0
  {
    assert MonthlyEquivalent(m) == 15.0;
    assert MonthlyEquivalent(q) == 30.0;
    assert MonthlyEquivalent(a) == 100.0;
    SumConcat(MonthlyEquivalent, [m, q], [a]);
    SumConcat(MonthlyEquivalent, [m], [q]);
    SumSingle(MonthlyEquivalent, m);
    SumSingle(MonthlyEquivalent, q);
    SumSingle(MonthlyEquivalent, a);
    assert [m, q] + [a] == [m, q, a];
    assert [m] + [q] == [m, q];
  }

  // ---------------------------------------------------------------------
  // formatDataForPieChart

  /** One entry of the pie chart. */
  datatype PieSlice = PieSlice(name: string, amount: real, color: string, legendFontColor: string, legendFontSize: nat)

  function SliceAmount(s: PieSlice): real { s.amount }

  /** `CATEGORY_COLORS` of `src/constants/theme.ts`. */
  const CategoryColors: map<string, string> := map[
    "Food" := "#0070F3",
    "Transport" := "#F5A623",
    "Entertainment" := "#7928CA",
    "Utilities" := "#17C964",
    "Shopping" := "#F31260",
    "Health" := "#0AC5B3",
    "Education" := "#9751F2",
    "Other" := "#888888"]

  /** The colour used for a key missing from the table. */
  const FallbackColor: string := "#CCCCCC"

  /** `CATEGORY_COLORS[name] || '#CCCCCC'`. */
  function ColorFor(name: string): string
  {
    if name in CategoryColors then CategoryColors[name] else FallbackColor
  }

  /** Every category has its own colour in the table. */
  lemma CategoryColorsCover(c: Category)
    ensures CategoryName(c) in CategoryColors
    ensures ColorFor(CategoryName(c)) == CategoryColors[CategoryName(c)] != FallbackColor
  {
  }

  function Slice(x: CategoryAmount): PieSlice
  {
    PieSlice(CategoryName(x.category), x.amount, ColorFor(CategoryName(x.category)), "#7F7F7F", 12)
  }

  /** `formatDataForPieChart`: one slice per key, in key order, with the
      amount copied and the category's colour. */
  function FormatDataForPieChart(g: seq<CategoryAmount>): (r: seq<PieSlice>)
    ensures |r| == |g|
    ensures forall i :: 0 <= i < |r| ==> r[i].name == CategoryName(g[i].category) && r[i].amount == g[i].amount
    ensures forall i :: 0 <= i < |r| ==> r[i].name in CategoryColors && r[i].color == CategoryColors[r[i].name] != FallbackColor
    ensures Sum(SliceAmount, r) == Sum(EntryAmount, g)
  {
    var r := seq(|g|, i requires 0 <= i < |g| => Slice(g[i]));
    forall i | 0 <= i < |g| ensures ColorFor(CategoryName(g[i].category)) == CategoryColors[CategoryName(g[i].category)] != FallbackColor {
      CategoryColorsCover(g[i].category);
    }
    SumPointwise(EntryAmount, g, SliceAmount, r);
    r
  }

  // ---------------------------------------------------------------------
  // searchExpensesByTerm

  /** `searchTerm.toLowerCase().trim()`. */
  function NormalizeTerm(searchTerm: string): string
  {
    Trim(ToLower(searchTerm))
  }

  /** The lower-cased description or category name contains the term. */
  predicate ExpenseMatches(e: Expense, term: string)
  {
    Contains(ToLower(e.description), term) || Contains(ToLower(CategoryName(e.category)), term)
  }

  function MatchesTermOf(term: string): Expense -> bool
  {
    (e: Expense) => ExpenseMatches(e, term)
  }

  /** `searchExpensesByTerm`: the input itself for a blank term, otherwise
      the matching expenses in their order. */
  function SearchExpensesByTerm(es: seq<Expense>, searchTerm: string): (r: seq<Expense>)
    ensures NormalizeTerm(searchTerm) == [] ==> r == es
    ensures NormalizeTerm(searchTerm) != [] ==>
              forall e :: e in r <==> e in es && ExpenseMatches(e, NormalizeTerm(searchTerm))
    ensures NormalizeTerm(searchTerm) != [] ==>
              forall e :: multiset(r)[e] == if ExpenseMatches(e, NormalizeTerm(searchTerm)) then multiset(es)[e] else 0
    ensures IsSubsequence(r, es)
  {
    var term := NormalizeTerm(searchTerm);
    if term == [] then
      SubsequenceReflexive(es);
      es
    else
      FilterIsSubsequence(MatchesTermOf(term), es);
      FilterMultiset(MatchesTermOf(term), es);
      Filter(MatchesTermOf(term), es)
  }

  // ---------------------------------------------------------------------
  // getUpcomingSubscriptions

  function DueWithinAMonthOf(now: Date): Subscription -> bool
  {
    (s: Subscription) => Before(now, s.nextBillingDate) && Before(s.nextBillingDate, AddMonths(now, 1))
  }

  /** `getUpcomingSubscriptions`: the subscriptions billed strictly after
      `now` and strictly before the same moment one month later. */
  function GetUpcomingSubscriptions(subs: seq<Subscription>, now: Date): (r: seq<Subscription>)
    ensures forall s :: s in r <==> s in subs && Before(now, s.nextBillingDate) && Before(s.nextBillingDate, AddMonths(now, 1))
    ensures forall s :: multiset(r)[s]
              == if Before(now, s.nextBillingDate) && Before(s.nextBillingDate, AddMonths(now, 1)) then multiset(subs)[s] else 0
    ensures IsSubsequence(r, subs)
  {
    FilterIsSubsequence(DueWithinAMonthOf(now), subs);
    FilterMultiset(DueWithinAMonthOf(now), subs);
    Filter(DueWithinAMonthOf(now), subs)
  }

  // ---------------------------------------------------------------------
  // The calendar-month total both chart screens compute

  /** `calculateTotalExpenses(filterExpensesByDateRange(es, startOfMonth(m),
      endOfMonth(m)))`. */
  function MonthTotal(es: seq<Expense>, month: Date): real
  {
    CalculateTotalExpenses(FilterExpensesByDateRange(es, StartOfMonth(month), EndOfMonth(month)))
  }

  function InMonthOf(i: int): Expense -> bool
  {
    (e: Expense) => MonthIndex(e.date) == i
  }

  /** The expenses dated in the month with index `i`, in their order. */
  function ExpensesInMonth(es: seq<Expense>, i: int): seq<Expense>
  {
    Filter(InMonthOf(i), es)
  }

  /** Filtering from the start to the end of a month keeps exactly the
      expenses of that calendar month, every copy, in their order. */
  lemma MonthFilterIsCalendarMonth(es: seq<Expense>, month: Date)
    requires DatesValid(es) && 1 <= month.month <= 12
    ensures FilterExpensesByDateRange(es, StartOfMonth(month), EndOfMonth(month)) == ExpensesInMonth(es, MonthIndex(month))
  {
    var start, end := StartOfMonth(month), EndOfMonth(month);
    forall e | e in es
      ensures InRangeOf(start, end)(e) == InMonthOf(MonthIndex(month))(e)
    {
      InMonthIff(month, e.date);
    }
    FilterCongruent(InRangeOf(start, end), InMonthOf(MonthIndex(month)), es);
  }

  /** A month's chart value is the total of exactly the expenses of that
      calendar month. */
  lemma MonthTotalIsCalendarMonth(es: seq<Expense>, month: Date)
    requires DatesValid(es) && 1 <= month.month <= 12
    ensures MonthTotal(es, month) == CalculateTotalExpenses(ExpensesInMonth(es, MonthIndex(month)))
  {
    MonthFilterIsCalendarMonth(es, month);
  }

  /** The same, for the month with index `i`. */
  lemma MonthStartTotal(es: seq<Expense>, i: int)
    requires DatesValid(es)
    ensures MonthTotal(es, MonthStart(i)) == CalculateTotalExpenses(ExpensesInMonth(es, i))
  {
    MonthTotalIsCalendarMonth(es, MonthStart(i));
  }
}
