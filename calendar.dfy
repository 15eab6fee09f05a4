/**
 * Calendar dates and the calendar buckets that pandas' 'M', 'Q' and 'Y'
 * resample rules group them into: month-end, quarter-end (March, June,
 * September, December) and year-end periods of the Gregorian calendar.
 */
module Calendar {

  /** A (year, month, day) triple; `Date` below restricts it to real dates. */
  datatype CalendarDate = CalendarDate(year: int, month: int, day: int)

  predicate IsLeapYear(year: int) {
    year % 4 == 0 && (year % 100 != 0 || year % 400 == 0)
  }

  function DaysInMonth(year: int, month: int): (n: int)
    requires 1 <= month <= 12
    ensures 28 <= n <= 31
    ensures month == 2 ==> (n == 29 <==> IsLeapYear(year))
  {
    if month == 2 then (if IsLeapYear(year) then 29 else 28)
    else if month == 4 || month == 6 || month == 9 || month == 11 then 30
    else 31
  }

  predicate IsValid(d: CalendarDate) {
    1 <= d.month <= 12 && 1 <= d.day <= DaysInMonth(d.year, d.month)
  }

  /** A day of the Gregorian calendar, as a pandas Timestamp index holds. */
  type Date = d: CalendarDate | IsValid(d) witness CalendarDate(1970, 1, 1)

  /** Strict chronological order. */
  predicate Before(a: Date, b: Date) {
    a.year < b.year
    || (a.year == b.year && a.month < b.month)
    || (a.year == b.year && a.month == b.month && a.day < b.day)
  }

  /** The three coarser timeframes of the dashboard. */
  datatype Granularity = Monthly | Quarterly | Yearly

  /**
   * The bucket a date falls in: (year, month) for a month, (year, quarter)
   * with quarter 0..3 for a quarter, and (year, 0) for a year.
   */
  datatype Key = Key(year: int, part: int)

  predicate KeyBefore(a: Key, b: Key) {
    a.year < b.year || (a.year == b.year && a.part < b.part)
  }

  predicate IsKey(g: Granularity, k: Key) {
    match g
    case Monthly => 1 <= k.part <= 12
    case Quarterly => 0 <= k.part <= 3
    case Yearly => k.part == 0
  }

  function KeyOf(g: Granularity, d: Date): (k: Key)
    ensures IsKey(g, k)
    ensures k.year == d.year
  {
    match g
    case Monthly => Key(d.year, d.month)
    case Quarterly => Key(d.year, (d.month - 1) / 3)
    case Yearly => Key(d.year, 0)
  }

  /** The last month of a bucket: the month itself, the quarter's third month, or December. */
  function EndMonth(g: Granularity, k: Key): (m: int)
    requires IsKey(g, k)
    ensures 1 <= m <= 12
  {
    match g
    case Monthly => k.part
    case Quarterly => 3 * k.part + 3
    case Yearly => 12
  }

  /**
   * The label pandas gives a bucket: the last calendar day of the period.
   * Every key is the key of its own label.
   */
  function PeriodEnd(g: Granularity, k: Key): (d: Date)
    requires IsKey(g, k)
    ensures KeyOf(g, d) == k
    ensures d.day == DaysInMonth(d.year, d.month)
  {
    var m := EndMonth(g, k);
    CalendarDate(k.year, m, DaysInMonth(k.year, m))
  }

  /** A date lies in exactly the bucket its key names: the bucket ends on or after it. */
  lemma PeriodContains(g: Granularity, d: Date)
    ensures !Before(PeriodEnd(g, KeyOf(g, d)), d)
    ensures PeriodEnd(g, KeyOf(g, d)).year == d.year
    ensures d.month <= PeriodEnd(g, KeyOf(g, d)).month
  {
    var e := PeriodEnd(g, KeyOf(g, d));
    if g == Quarterly {
      assert e.month == 3 * ((d.month - 1) / 3) + 3;
    }
    if e.month == d.month {
      assert e.day == DaysInMonth(d.year, d.month);
    }
  }

  /** Calendar keys never go backwards along the calendar. */
  lemma KeyMonotone(g: Granularity, a: Date, b: Date)
    requires Before(a, b)
    ensures KeyOf(g, a) == KeyOf(g, b) || KeyBefore(KeyOf(g, a), KeyOf(g, b))
  {
    if g == Quarterly && a.year == b.year {
      QuarterMonotone(a.month, b.month);
    }
  }

  lemma QuarterMonotone(m1: int, m2: int)
    requires 1 <= m1 <= m2 <= 12
    ensures (m1 - 1) / 3 <= (m2 - 1) / 3
  {
  }

  /** Bucket labels are strictly ordered exactly as their keys are. */
  lemma PeriodEndMonotone(g: Granularity, k1: Key, k2: Key)
    requires IsKey(g, k1) && IsKey(g, k2)
    ensures KeyBefore(k1, k2) <==> Before(PeriodEnd(g, k1), PeriodEnd(g, k2))
  {
  }
}
