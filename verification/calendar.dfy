/** Calendar dates of the proleptic Gregorian calendar, as the dashboard's
    JavaScript `Date` values denote them once the time of day and the time
    zone are set aside: a (year, month, day) triple with month 1..12, and a
    day number that orders dates and gives their weekday. */
module Calendar {

  datatype Date = Date(year: int, month: int, day: int)

  predicate IsLeapYear(y: int)
  {
    y % 4 == 0 && (y % 100 != 0 || y % 400 == 0)
  }

  function DaysInMonth(y: int, m: int): (n: int)
    requires 1 <= m <= 12
    ensures 28 <= n <= 31
  {
    if m == 2 then (if IsLeapYear(y) then 29 else 28)
    else if m == 4 || m == 6 || m == 9 || m == 11 then 30
    else 31
  }

  function DaysInYear(y: int): int
  {
    if IsLeapYear(y) then 366 else 365
  }

  /** A date that exists: month 1..12 and a day inside that month. */
  predicate Valid(d: Date)
  {
    1 <= d.month <= 12 && 1 <= d.day <= DaysInMonth(d.year, d.month)
  }

  /** Days from 0001-01-01 to the first of January of year `y`. */
  function DaysBeforeYear(y: int): int
  {
    var p := y - 1;
    365 * p + p / 4 - p / 100 + p / 400
  }

  /** Days from the first of January to the first of month `m` of year `y`. */
  function DaysBeforeMonth(y: int, m: int): int
    requires 1 <= m <= 12
  {
    var common :=
      if m == 1 then 0 else if m == 2 then 31 else if m == 3 then 59
      else if m == 4 then 90 else if m == 5 then 120 else if m == 6 then 151
      else if m == 7 then 181 else if m == 8 then 212 else if m == 9 then 243
      else if m == 10 then 273 else if m == 11 then 304 else 334;
    common + (if m > 2 && IsLeapYear(y) then 1 else 0)
  }

  /** The day number of a date: 0001-01-01 is day 0. */
  function Ordinal(d: Date): int
    requires Valid(d)
  {
    DaysBeforeYear(d.year) + DaysBeforeMonth(d.year, d.month) + d.day - 1
  }

  /** `Date.prototype.getDay`: 0 for Sunday up to 6 for Saturday
      (0001-01-01 was a Monday). */
  function Weekday(d: Date): (w: int)
    requires Valid(d)
    ensures 0 <= w < 7
  {
    (Ordinal(d) + 1) % 7
  }

  /** The Unix epoch, 1970-01-01, was a Thursday; 2024-01-01 was a Monday. */
  lemma WeekdayAnchors()
    ensures Valid(Date(1970, 1, 1)) && Weekday(Date(1970, 1, 1)) == 4
    ensures Valid(Date(2024, 1, 1)) && Weekday(Date(2024, 1, 1)) == 1
  {
    assert Ordinal(Date(1970, 1, 1)) == 719162;
    assert Ordinal(Date(2024, 1, 1)) == 738885;
  }

  /** The day after a date falls on the next weekday, Saturday wrapping
      round to Sunday. */
  lemma NextWeekday(d: Date, e: Date)
    requires Valid(d) && Valid(e) && Ordinal(e) == Ordinal(d) + 1
    ensures Weekday(e) == (Weekday(d) + 1) % 7
  {
    var n := Ordinal(d) + 1;
    var q, r := n / 7, n % 7;
    if r == 6 {
      QuotientOf(n + 1, 7, q + 1, 0);
    } else {
      QuotientOf(n + 1, 7, q, r + 1);
    }
  }

  /** Calendar order: by year, then month, then day. */
  predicate Before(a: Date, b: Date)
  {
    a.year < b.year
    || (a.year == b.year && a.month < b.month)
    || (a.year == b.year && a.month == b.month && a.day < b.day)
  }

  /** A year is as long as the calendar says. */
  lemma YearLength(y: int)
    ensures DaysBeforeYear(y + 1) - DaysBeforeYear(y) == DaysInYear(y)
  {
    QuotientStep(y - 1, 4);
    QuotientStep(y - 1, 100);
    QuotientStep(y - 1, 400);
  }

  /** Counting multiples of `k`: the quotient grows by one exactly when
      `p + 1` is a multiple of `k`. */
  lemma QuotientStep(p: int, k: int)
    requires k > 0
    ensures (p + 1) / k - p / k == if (p + 1) % k == 0 then 1 else 0
  {
    var q, r := p / k, p % k;
    assert p == k * q + r && 0 <= r < k;
    if r == k - 1 {
      assert p + 1 == k * (q + 1);
      QuotientOf(p + 1, k, q + 1, 0);
    } else {
      assert p + 1 == k * q + (r + 1);
      QuotientOf(p + 1, k, q, r + 1);
    }
  }

  /** Euclidean division has one quotient and one remainder. */
  lemma QuotientOf(n: int, k: int, q: int, r: int)
    requires k > 0 && 0 <= r < k && n == k * q + r
    ensures n / k == q && n % k == r
  {
    var q', r' := n / k, n % k;
    assert n == k * q' + r' && 0 <= r' < k;
    if q > q' {
      MultipleAtLeast(k, q - q');
    } else if q < q' {
      MultipleAtLeast(k, q' - q);
    }
  }

  lemma {:induction false} MultipleAtLeast(k: int, a: int)
    requires k > 0 && a >= 1
    ensures k * a >= k
    decreases a
  {
    if a > 1 {
      MultipleAtLeast(k, a - 1);
      assert k * a == k * (a - 1) + k;
    }
  }

  /** Every day of year `y` falls before the first of January of year `y + 1`. */
  lemma DayInYear(d: Date)
    requires Valid(d)
    ensures DaysBeforeYear(d.year) <= Ordinal(d) < DaysBeforeYear(d.year + 1)
  {
    YearLength(d.year);
  }

  /** Later years start later. */
  lemma {:induction false} YearsAscend(y1: int, y2: int)
    requires y1 < y2
    ensures DaysBeforeYear(y1 + 1) <= DaysBeforeYear(y2)
    decreases y2 - y1
  {
    if y1 + 1 < y2 {
      YearsAscend(y1 + 1, y2);
      YearLength(y1 + 1);
    }
  }

  /** Calendar order and day-number order are the same order. */
  lemma OrdinalOrder(a: Date, b: Date)
    requires Valid(a) && Valid(b)
    ensures Ordinal(a) < Ordinal(b) <==> Before(a, b)
  {
    if Before(a, b) {
      BeforeAscends(a, b);
    } else if Before(b, a) {
      BeforeAscends(b, a);
    } else {
      assert a == b;
    }
  }

  lemma BeforeAscends(a: Date, b: Date)
    requires Valid(a) && Valid(b) && Before(a, b)
    ensures Ordinal(a) < Ordinal(b)
  {
    if a.year < b.year {
      DayInYear(a);
      DayInYear(b);
      YearsAscend(a.year, b.year);
    }
  }

  /** Distinct valid dates have distinct day numbers. */
  lemma OrdinalInjective(a: Date, b: Date)
    requires Valid(a) && Valid(b)
    ensures Ordinal(a) == Ordinal(b) <==> a == b
  {
    OrdinalOrder(a, b);
    OrdinalOrder(b, a);
  }
}
