/** The two date helpers of the area chart, `parseDate` and
    `formatDateToISO`, and the date-only ISO reading `new Date(key)` that the
    chart applies to the keys it produced. */
module ChartDates {

  import opened Text
  import opened Calendar

  /** What `parseDate` produced: the date the text names, or the current
      date because the text did not split into three parts. `Unsupported`
      stands for the three-part texts whose JavaScript result (a rolled-over
      date or an invalid date) is not modelled. */
  datatype ParsedDate = Parsed(date: Date) | Fallback(date: Date) | Unsupported

  /** The year `new Date(year, …)` means: 0..99 denote 1900..1999. */
  function FullYear(year: nat): int
  {
    if year <= 99 then 1900 + year else year
  }

  /** `new Date(year, monthIndex, day)` when the components name a real
      day. */
  function MakeDate(year: nat, monthIndex: int, day: int): (r: Option<Date>)
    ensures r.Some? ==> Valid(r.value) && r.value.month == monthIndex + 1 && r.value.day == day
    ensures r.Some? ==> r.value.year == if year < 100 then 1900 + year else year
    ensures r.None? ==> !Valid(Date(if year < 100 then 1900 + year else year, monthIndex + 1, day))
  {
    var d := Date(FullYear(year), monthIndex + 1, day);
    if Valid(d) then Some(d) else None
  }

  /** The three `/`-separated parts of a text read as day, month and year
      name the date `d`. */
  predicate NamesDate(parts: seq<string>, d: Date)
  {
    |parts| == 3
    && ParseNat(parts[0]) == Some(d.day)
    && ParseNat(parts[1]) == Some(d.month)
    && ParseNat(parts[2]).Some? && FullYear(ParseNat(parts[2]).value) == d.year
  }

  /** `parseDate(dateString)` with `today` standing for `new Date()`: the
      date its day, month and year parts name when there is one, and the
      current date when the text does not have exactly two slashes. */
  function ParseDate(s: string, today: Date): (r: ParsedDate)
    ensures r.Fallback? <==> Count(s, '/') != 2
    ensures r.Fallback? ==> r.date == today
    ensures r.Parsed? ==> Valid(r.date)
  {
    var parts := Split(s, '/');
    if |parts| == 3 then
      match (ParseNat(parts[0]), ParseNat(parts[1]), ParseNat(parts[2]))
      case (Some(day), Some(month), Some(year)) =>
        (match MakeDate(year, month as int - 1, day)
         case Some(d) => Parsed(d)
         case None => Unsupported)
      case _ => Unsupported
    else
      Fallback(today)
  }

  /** What `parseDate` yields is the date its day, month and year parts
      name. */
  lemma ParseDateSound(s: string, today: Date)
    ensures ParseDate(s, today).Parsed? ==> NamesDate(Split(s, '/'), ParseDate(s, today).date)
  {
  }

  /** `parseDate` misses no date: whenever the parts name a real day it
      yields that day, so the unmodelled results are exactly the two-slash
      texts that name none. */
  lemma ParseDateComplete(s: string, today: Date, d: Date)
    requires Valid(d) && NamesDate(Split(s, '/'), d)
    ensures ParseDate(s, today) == Parsed(d)
  {
  }

  /** The `dd/mm/yyyy` text of a date, as the transactions carry it. */
  function DayMonthYear(d: Date): string
    requires Valid(d) && d.year >= 0
  {
    PadStart2(Decimal(d.day)) + "/" + PadStart2(Decimal(d.month)) + "/" + Decimal(d.year)
  }

  /** `parseDate` reads the day, the month and the year of a `dd/mm/yyyy`
      text and builds that date (for years of three or more digits; a
      shorter year is a 20th-century one). */
  lemma ParseDayMonthYear(d: Date, today: Date)
    requires Valid(d) && d.year >= 100
    ensures ParseDate(DayMonthYear(d), today) == Parsed(d)
  {
    var dd, mm, yy := PadStart2(Decimal(d.day)), PadStart2(Decimal(d.month)), Decimal(d.year);
    PadDecimalIsFixed2(d.day);
    PadDecimalIsFixed2(d.month);
    assert Pow10(2) == 100 by { assert Pow10(1) == 10 * Pow10(0); }
    ParseFixed(d.day, 2);
    ParseFixed(d.month, 2);
    ParseDecimal(d.year);
    assert '/' !in dd && '/' !in mm && '/' !in yy by {
      assert AllDigits(dd) && AllDigits(mm) && AllDigits(yy);
    }
    var parts := [dd, mm, yy];
    assert Join(parts, '/') == DayMonthYear(d) by {
      assert Join(parts[1..], '/') == mm + "/" + yy by {
        assert parts[1..][1..] == [yy];
      }
    }
    SplitJoin(parts, '/');
  }

  /** `String(year)`. */
  function YearString(y: int): string
  {
    if y < 0 then "-" + Decimal(-y) else Decimal(y)
  }

  /** `formatDateToISO(date)`: year, month and day joined by `-`, month and
      day zero-padded to two digits. */
  function FormatDateToISO(d: Date): (key: string)
    requires Valid(d)
    ensures key == YearString(d.year) + "-" + Fixed(d.month, 2) + "-" + Fixed(d.day, 2)
    ensures 1000 <= d.year <= 9999 ==> key == Fixed(d.year, 4) + "-" + Fixed(d.month, 2) + "-" + Fixed(d.day, 2)
  {
    PadDecimalIsFixed2(d.month);
    PadDecimalIsFixed2(d.day);
    FourDigitYear(d.year);
    YearString(d.year) + "-" + PadStart2(Decimal(d.month)) + "-" + PadStart2(Decimal(d.day))
  }

  /** A year of four digits is written with exactly four digits. */
  lemma FourDigitYear(y: int)
    ensures 1000 <= y <= 9999 ==> YearString(y) == Fixed(y, 4)
  {
    if 1000 <= y <= 9999 {
      assert Pow10(4) == 10000 && Pow10(3) == 1000 by {
        assert Pow10(1) == 10 * Pow10(0);
        assert Pow10(2) == 10 * Pow10(1);
        assert Pow10(3) == 10 * Pow10(2);
      }
      DecimalIsFixed(y, 4);
    }
  }

  /** `new Date(key)` for a key in the date-only ISO form `YYYY-MM-DD`;
      anything else is `None`. */
  function ParseISO(s: string): (r: Option<Date>)
    ensures r.Some? ==> Valid(r.value) && 0 <= r.value.year <= 9999
  {
    if |s| == 10 && s[4] == '-' && s[7] == '-' then
      match (ParseNat(s[..4]), ParseNat(s[5..7]), ParseNat(s[8..]))
      case (Some(y), Some(m), Some(d)) =>
        if Valid(Date(y, m, d)) then
          assert y < Pow10(4) by {
            FixedBound(s[..4]);
            assert Pow10(4) == 10000 by {
              assert Pow10(1) == 10 * Pow10(0);
              assert Pow10(2) == 10 * Pow10(1);
              assert Pow10(3) == 10 * Pow10(2);
            }
          }
          Some(Date(y, m, d))
        else None
      case _ => None
    else
      None
  }

  /** A string of `w` digits denotes a number below 10^w. */
  lemma {:induction false} FixedBound(s: string)
    requires AllDigits(s)
    ensures DigitsValue(s) < Pow10(|s|)
  {
    if s != [] {
      FixedBound(s[..|s| - 1]);
    }
  }

  /** Reading a key back as an ISO date gives the date it was made from,
      for the four-digit years the ISO form covers. */
  lemma ISORoundTrip(d: Date)
    requires Valid(d) && 1000 <= d.year <= 9999
    ensures ParseISO(FormatDateToISO(d)) == Some(d)
  {
    var key := FormatDateToISO(d);
    var y, m, dd := Fixed(d.year, 4), Fixed(d.month, 2), Fixed(d.day, 2);
    assert key == y + "-" + m + "-" + dd;
    assert key[..4] == y && key[5..7] == m && key[8..] == dd;
    assert Pow10(4) == 10000 && Pow10(2) == 100 by {
      assert Pow10(1) == 10 * Pow10(0);
      assert Pow10(2) == 10 * Pow10(1);
      assert Pow10(3) == 10 * Pow10(2);
    }
    ParseFixed(d.year, 4);
    ParseFixed(d.month, 2);
    ParseFixed(d.day, 2);
  }

  /** Different dates get different keys (four-digit years). */
  lemma KeyInjective(a: Date, b: Date)
    requires Valid(a) && 1000 <= a.year <= 9999
    requires Valid(b) && 1000 <= b.year <= 9999
    ensures FormatDateToISO(a) == FormatDateToISO(b) <==> a == b
  {
    ISORoundTrip(a);
    ISORoundTrip(b);
  }

  /** String order on keys is chronological order (four-digit years). */
  lemma KeyOrder(a: Date, b: Date)
    requires Valid(a) && 1000 <= a.year <= 9999
    requires Valid(b) && 1000 <= b.year <= 9999
    ensures Less(FormatDateToISO(a), FormatDateToISO(b)) <==> Ordinal(a) < Ordinal(b)
  {
    assert Pow10(4) == 10000 && Pow10(2) == 100 by {
      assert Pow10(1) == 10 * Pow10(0);
      assert Pow10(2) == 10 * Pow10(1);
      assert Pow10(3) == 10 * Pow10(2);
    }
    FixedOrder(a.year, b.year, 4);
    FixedInjective(a.year, b.year, 4);
    FixedOrder(a.month, b.month, 2);
    FixedInjective(a.month, b.month, 2);
    FixedOrder(a.day, b.day, 2);
    BlockOrder(Fixed(a.year, 4), Fixed(a.month, 2), Fixed(a.day, 2), Fixed(b.year, 4), Fixed(b.month, 2), Fixed(b.day, 2));
    OrdinalOrder(a, b);
  }

  /** Keys made of equal-width blocks compare block by block. */
  lemma BlockOrder(y: string, m: string, d: string, y': string, m': string, d': string)
    requires |y| == |y'| && |m| == |m'|
    ensures Less(y + "-" + m + "-" + d, y' + "-" + m' + "-" + d')
        <==> Less(y, y') || (y == y' && (Less(m, m') || (m == m' && Less(d, d'))))
  {
    LessIrreflexive("-");
    LessConcat("-", d, "-", d');
    LessConcat(m, "-" + d, m', "-" + d');
    LessConcat("-", m + "-" + d, "-", m' + "-" + d');
    LessConcat(y, "-" + m + "-" + d, y', "-" + m' + "-" + d');
    assert y + "-" + m + "-" + d == y + ("-" + (m + ("-" + d)));
    assert y' + "-" + m' + "-" + d' == y' + ("-" + (m' + ("-" + d')));
    assert "-" + m + "-" + d == "-" + (m + ("-" + d));
    assert "-" + m' + "-" + d' == "-" + (m' + ("-" + d'));
    assert m + "-" + d == m + ("-" + d);
    assert m' + "-" + d' == m' + ("-" + d');
  }
}
