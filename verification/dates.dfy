/** Local calendar date-times and the date-fns operations the app uses:
    `isBefore`/`isAfter`, `addMonths` (and `addQuarters`, `addYears`,
    `subMonths`, which are `addMonths` by 3, 12 and -n), `startOfMonth`,
    `endOfMonth`, `eachMonthOfInterval` and `format(d, 'MMM')`. */
module Dates {

  /** Milliseconds in one day. */
  const MsPerDay: int := 86_400_000

  /** A local date-time: year, month (1 to 12), day of the month and the
      milliseconds elapsed since local midnight. */
  datatype Date = Date(year: int, month: int, day: int, ms: int)

  /** Gregorian leap years. */
  predicate IsLeapYear(y: int)
  {
    (y % 4 == 0 && y % 100 != 0) || y % 400 == 0
  }

  function DaysInMonth(y: int, m: int): (n: int)
    ensures 28 <= n <= 31
  {
    if m == 2 then (if IsLeapYear(y) then 29 else 28)
    else if m == 4 || m == 6 || m == 9 || m == 11 then 30
    else 31
  }

  /** A date that exists on the calendar. */
  predicate ValidDate(d: Date)
  {
    1 <= d.month <= 12 && 1 <= d.day <= DaysInMonth(d.year, d.month) && 0 <= d.ms < MsPerDay
  }

  /** Months since January of year 0: consecutive months get consecutive
      indices. */
  function MonthIndex(d: Date): int
  {
    d.year * 12 + d.month - 1
  }

  /** The instant `getTime()` measures, up to a fixed offset per month: the
      months are laid out 31 days apart, so calendar dates compare exactly
      as their `getTime()` values do. */
  function TimeValue(d: Date): int
  {
    (MonthIndex(d) * 31 + d.day - 1) * MsPerDay + d.ms
  }

  /** `isBefore(a, b)`, that is `a.getTime() < b.getTime()`. */
  predicate Before(a: Date, b: Date)
  {
    TimeValue(a) < TimeValue(b)
  }

  /** `a.getTime() <= b.getTime()`. */
  predicate AtOrBefore(a: Date, b: Date)
  {
    TimeValue(a) <= TimeValue(b)
  }

  /** On calendar dates the time value orders by year, then month, then day,
      then time of day, and two dates have the same time value exactly when
      they are the same date. */
  lemma TimeValueOrder(a: Date, b: Date)
    requires ValidDate(a) && ValidDate(b)
    ensures Before(a, b) <==>
              if a.year != b.year then a.year < b.year
              else if a.month != b.month then a.month < b.month
              else if a.day != b.day then a.day < b.day
              else a.ms < b.ms
    ensures TimeValue(a) == TimeValue(b) <==> a == b
  {
    MonthIndexOrder(a, b);
    MonthIndexOrder(b, a);
  }

  /** An earlier month index means an earlier date. */
  lemma MonthIndexOrder(a: Date, b: Date)
    requires ValidDate(a) && ValidDate(b)
    ensures MonthIndex(a) < MonthIndex(b) ==> Before(a, b)
    ensures AtOrBefore(a, b) ==> MonthIndex(a) <= MonthIndex(b)
  {
  }

  /** `addMonths(d, n)`: the same day `n` months later (earlier when `n` is
      negative), clamped to the last day of a shorter target month; the time
      of day is kept. */
  function AddMonths(d: Date, n: int): (r: Date)
    ensures MonthIndex(r) == MonthIndex(d) + n
    ensures 1 <= r.month <= 12
    ensures d.day <= DaysInMonth(r.year, r.month) ==> r.day == d.day
    ensures d.day > DaysInMonth(r.year, r.month) ==> r.day == DaysInMonth(r.year, r.month)
    ensures r.ms == d.ms
    ensures ValidDate(d) ==> ValidDate(r)
  {
    var i := MonthIndex(d) + n;
    var y, m := i / 12, i % 12 + 1;
    Date(y, m, if d.day <= DaysInMonth(y, m) then d.day else DaysInMonth(y, m), d.ms)
  }

  /** Adding months to a calendar date moves it forwards, subtracting moves
      it backwards, adding none leaves it. */
  lemma AddMonthsMoves(d: Date, n: int)
    ensures ValidDate(d) && n > 0 ==> Before(d, AddMonths(d, n))
    ensures ValidDate(d) && n < 0 ==> Before(AddMonths(d, n), d)
    ensures ValidDate(d) && n == 0 ==> AddMonths(d, n) == d
  {
    if ValidDate(d) {
      MonthIndexOrder(d, AddMonths(d, n));
      MonthIndexOrder(AddMonths(d, n), d);
    }
  }

  /** The clamping case: one month after 31 January is the last day of
      February, 29 in a leap year and 28 otherwise. */
  lemma AddMonthsClampsToFebruary(ms: int)
    ensures AddMonths(Date(2024, 1, 31, ms), 1) == Date(2024, 2, 29, ms)
    ensures AddMonths(Date(2023, 1, 31, ms), 1) == Date(2023, 2, 28, ms)
    ensures AddMonths(Date(2024, 2, 29, ms), 12) == Date(2025, 2, 28, ms)
  {
  }

  /** `startOfMonth(d)`: midnight on the first day of `d`'s month. */
  function StartOfMonth(d: Date): Date
  {
    Date(d.year, d.month, 1, 0)
  }

  /** `endOfMonth(d)`: the last millisecond of `d`'s month. */
  function EndOfMonth(d: Date): Date
  {
    Date(d.year, d.month, DaysInMonth(d.year, d.month), MsPerDay - 1)
  }

  /** A date lies between the start and the end of a month, both included,
      exactly when it falls in that calendar month. */
  lemma InMonthIff(month: Date, x: Date)
    requires ValidDate(x) && 1 <= month.month <= 12
    ensures AtOrBefore(StartOfMonth(month), x) && AtOrBefore(x, EndOfMonth(month))
            <==> x.year == month.year && x.month == month.month
  {
  }

  /** Midnight on the first day of the month with index `i`. */
  function MonthStart(i: int): (r: Date)
    ensures MonthIndex(r) == i && ValidDate(r) && r.day == 1 && r.ms == 0
  {
    Date(i / 12, i % 12 + 1, 1, 0)
  }

  /** `eachMonthOfInterval({start, end})`: the first day of every month from
      `start`'s to `end`'s, both included. date-fns rejects an interval whose
      start is after its end. */
  function EachMonthOfInterval(start: Date, end: Date): (r: seq<Date>)
    requires ValidDate(start) && ValidDate(end) && AtOrBefore(start, end)
    ensures |r| == MonthIndex(end) - MonthIndex(start) + 1
    ensures forall k :: 0 <= k < |r| ==> r[k] == MonthStart(MonthIndex(start) + k)
    ensures r[0].year == start.year && r[0].month == start.month
    ensures r[|r| - 1].year == end.year && r[|r| - 1].month == end.month
  {
    MonthIndexOrder(start, end);
    seq(MonthIndex(end) - MonthIndex(start) + 1, k => MonthStart(MonthIndex(start) + k))
  }

  /** `format(d, 'MMM')` in the default English locale. */
  function MonthLabel(d: Date): string
    requires 1 <= d.month <= 12
  {
    ["Jan", "Feb", "Mar", "Apr", "May", "Jun", "Jul", "Aug", "Sep", "Oct", "Nov", "Dec"][d.month - 1]
  }
}
