/** Calendar dates as Python's datetime.date handles them (years 1 to 9999). */
module Calendar {
  import opened Wrappers

  datatype Date = Date(year: int, month: int, day: int)

  const MinYear: int := 1
  const MaxYear: int := 9999

  predicate IsLeap(y: int)
  {
    y % 4 == 0 && (y % 100 != 0 || y % 400 == 0)
  }

  function DaysIn(y: int, m: int): (n: int)
    requires 1 <= m <= 12
    ensures 28 <= n <= 31
  {
    if m == 2 then (if IsLeap(y) then 29 else 28)
    else if m == 4 || m == 6 || m == 9 || m == 11 then 30
    else 31
  }

  predicate ValidDate(d: Date)
  {
    MinYear <= d.year <= MaxYear && 1 <= d.month <= 12 && 1 <= d.day <= DaysIn(d.year, d.month)
  }

  /** date(y, m, d): ValueError for a month or day out of range. */
  function MakeDate(y: int, m: int, d: int): (r: Result<Date>)
    ensures r.Ok? <==> ValidDate(Date(y, m, d))
    ensures r.Ok? ==> r.value == Date(y, m, d)
    ensures r.Err? ==> r.error == ValueError
  {
    if ValidDate(Date(y, m, d)) then Ok(Date(y, m, d)) else Err(ValueError)
  }

  /** date(d.year, d.month, 1) */
  function MonthStart(d: Date): (r: Date)
    requires ValidDate(d)
    ensures ValidDate(r) && r.year == d.year && r.month == d.month && r.day == 1
  {
    Date(d.year, d.month, 1)
  }

  /** The last day of d's month. */
  function MonthEnd(d: Date): (r: Date)
    requires ValidDate(d)
    ensures ValidDate(r) && r.year == d.year && r.month == d.month && r.day >= d.day
    ensures r.day == DaysIn(r.year, r.month)
  {
    Date(d.year, d.month, DaysIn(d.year, d.month))
  }

  /** Months counted from January of year 0, so that consecutive months differ by one. */
  function MonthIndex(d: Date): int
  {
    d.year * 12 + d.month - 1
  }

  /** d - timedelta(days=1): OverflowError before 1 January of year 1. */
  function PrevDay(d: Date): (r: Result<Date>)
    requires ValidDate(d)
    ensures r.Err? <==> d == Date(MinYear, 1, 1)
    ensures r.Err? ==> r.error == Overflow
    ensures r.Ok? ==> ValidDate(r.value)
    ensures r.Ok? && d.day > 1 ==> r.value == d.(day := d.day - 1)
    ensures r.Ok? && d.day == 1 ==>
      (MonthIndex(r.value) == MonthIndex(d) - 1 && r.value.day == DaysIn(r.value.year, r.value.month))
  {
    if d.day > 1 then Ok(d.(day := d.day - 1))
    else if d.month > 1 then Ok(Date(d.year, d.month - 1, DaysIn(d.year, d.month - 1)))
    else if d.year > MinYear then Ok(Date(d.year - 1, 12, 31))
    else Err(Overflow)
  }

  /** Two dates of the same month index are in the same month. */
  lemma SameMonth(a: Date, b: Date)
    requires ValidDate(a) && ValidDate(b) && MonthIndex(a) == MonthIndex(b)
    ensures a.year == b.year && a.month == b.month
  {
  }
}
